/** Which server a transport was created for, over any run of reloads: a prefix is only ever served by a transport
    launched as its own server says (internal/core/state/state.go). */
module TransportLaunch {
  import opened Options
  import opened ConfigModel
  import opened ConfigValidator
  import opened RuntimeIndex
  import opened TransportLifetime
  import opened IndexScan

  /** The MCP server of a prefix that holds the transport. */
  ghost function ServerOf(rt: Runtime, t: nat): Option<McpServer>
    requires t in Held(rt)
  {
    var p :| p in rt && rt[p].transport == Some(t);
    rt[p].mcpServer
  }

  /** Every transport ever held, with the server it was created for. */
  ghost function Ledger(rs: seq<Reload>): map<nat, Option<McpServer>> {
    if rs == [] then map[]
    else
      var before := rs[..|rs| - 1];
      var rt := AfterReloads(rs).state.runtime;
      Ledger(before) + map t | t in Held(rt) && AfterReloads(before).next <= t :: ServerOf(rt, t)
  }

  /** Every prefix with a transport is served by one launched for a server of the same kind, command, URL and
      arguments. */
  ghost predicate LaunchedAsConfigured(rt: Runtime, created: map<nat, Option<McpServer>>) {
    forall p :: p in rt && rt[p].transport.Some? ==>
      && rt[p].mcpServer.Some? && rt[p].transport.value in created && created[rt[p].transport.value].Some?
      && var m, launched := rt[p].mcpServer.value, created[rt[p].transport.value].value;
         m.kind == launched.kind && m.command == launched.command && m.url == launched.url && m.args == launched.args
  }

  lemma {:induction false} LedgerIsBounded(rs: seq<Reload>)
    ensures forall t :: t in Ledger(rs) ==> t < AfterReloads(rs).next
  {
    if rs == [] {
    } else {
      var before := rs[..|rs| - 1];
      LedgerIsBounded(before);
      StoppedTransportsNeverReturn(rs, 0);
      NextGrows(before, rs[|rs| - 1]);
      assert before + [rs[|rs| - 1]] == rs;
    }
  }

  lemma NextGrows(before: seq<Reload>, last: Reload)
    ensures AfterReloads(before).next <= AfterReloads(before + [last]).next
  {
    var g := AfterReloads(before);
    assert (before + [last])[..|before|] == before;
    StoppedTransportsNeverReturn(before, 0);
    ConfigsKeep(Context(g.state.runtime, last.client), g.next, StartBuild(g.next), last.configs);
  }

  lemma HolderIsServed(rt: Runtime, p: string)
    requires Unshared(rt) && p in rt && rt[p].transport.Some?
    ensures rt[p].transport.value in Held(rt) && ServerOf(rt, rt[p].transport.value) == rt[p].mcpServer
  {
    assert rt[p].transport.value in Held(rt);
  }

  /** What one reload adds to the ledger. */
  lemma LedgerAfter(before: seq<Reload>, last: Reload)
    ensures AfterReloads(before + [last]) == AfterReload(AfterReloads(before), last)
    ensures var g, rt := AfterReloads(before), AfterReloads(before + [last]).state.runtime;
            Ledger(before + [last]) == Ledger(before) + map t | t in Held(rt) && g.next <= t :: ServerOf(rt, t)
  {
    assert (before + [last])[..|before|] == before;
  }

  /** Each prefix of the state after a reload has what it had before it, or a new transport. */
  lemma ReloadKeepsOrLaunches(g: Keeper, r: Reload, p: string)
    requires LifetimeInv(g)
    requires p in AfterReload(g, r).state.runtime && AfterReload(g, r).state.runtime[p].transport.Some?
    ensures var u := AfterReload(g, r).state.runtime[p];
            && u.mcpServer.Some?
            && (u.transport.value < g.next ==>
                  && p in g.state.runtime && g.state.runtime[p].transport == u.transport
                  && g.state.runtime[p].mcpServer.Some?
                  && var a, m := g.state.runtime[p].mcpServer.value, u.mcpServer.value;
                     a.kind == m.kind && a.command == m.command && a.url == m.url && a.args == m.args)
  {
    ConfigsKeep(Context(g.state.runtime, r.client), g.next, StartBuild(g.next), r.configs);
  }

  lemma LedgerStep(before: seq<Reload>, last: Reload)
    requires LaunchedAsConfigured(AfterReloads(before).state.runtime, Ledger(before))
    ensures LaunchedAsConfigured(AfterReloads(before + [last]).state.runtime, Ledger(before + [last]))
  {
    var g, g' := AfterReloads(before), AfterReloads(before + [last]);
    LedgerAfter(before, last);
    LedgerIsBounded(before);
    StoppedTransportsNeverReturn(before, 0);
    StoppedTransportsNeverReturn(before + [last], 0);
    var rt := g'.state.runtime;
    forall p | p in rt && rt[p].transport.Some?
      ensures rt[p].mcpServer.Some? && rt[p].transport.value in Ledger(before + [last])
      ensures Ledger(before + [last])[rt[p].transport.value] ==
              if g.next <= rt[p].transport.value then rt[p].mcpServer else Ledger(before)[rt[p].transport.value]
      ensures rt[p].transport.value < g.next ==>
                && p in g.state.runtime && g.state.runtime[p].transport == rt[p].transport
                && g.state.runtime[p].mcpServer.Some?
                && var a, m := g.state.runtime[p].mcpServer.value, rt[p].mcpServer.value;
                   a.kind == m.kind && a.command == m.command && a.url == m.url && a.args == m.args
    {
      HolderIsServed(rt, p);
      ReloadKeepsOrLaunches(g, last, p);
    }
  }

  /** Over any run of reloads, validated or not: whatever transport a prefix has was created for a server launched
      the same way, and what a transport was created for never changes. */
  lemma {:induction false} TransportsAreLaunchedAsConfigured(rs: seq<Reload>)
    ensures LaunchedAsConfigured(AfterReloads(rs).state.runtime, Ledger(rs))
    ensures rs != [] ==> forall t :: t in Ledger(rs[..|rs| - 1]) ==>
              t in Ledger(rs) && Ledger(rs)[t] == Ledger(rs[..|rs| - 1])[t]
  {
    if rs == [] {
    } else {
      var before, last := rs[..|rs| - 1], rs[|rs| - 1];
      TransportsAreLaunchedAsConfigured(before);
      LedgerStep(before, last);
      LedgerIsBounded(before);
      assert before + [last] == rs;
    }
  }

  /** A validated reload keeps the transport of a routed prefix exactly when the prefix is still routed to a server
      of the same kind, command, URL and arguments. */
  lemma TransportKeptExactlyForSameLaunch(cs: seq<Config>, prev: Runtime, client: bool, next: nat, i: nat, r: Router)
    requires WellKept(prev) && Unshared(prev) && Owned(prev, next) && ValidConfigs(cs)
    requires BuildFrom(cs, prev, client, next).Built?
    requires i < |cs| && r in cs[i].body.routers && r.prefix in prev && prev[r.prefix].mcpServer.Some?
    requires McpNamed(cs[i].body.mcpServers, Some(r.server)).Some?
    ensures var rt := BuildFrom(cs, prev, client, next).state.runtime;
            var a, m := prev[r.prefix].mcpServer.value, McpNamed(cs[i].body.mcpServers, Some(r.server)).value;
            && r.prefix in rt
            && (rt[r.prefix].transport == prev[r.prefix].transport <==>
                a.kind == m.kind && a.command == m.command && a.url == m.url && a.args == m.args)
  {
    IndexEqualsScan(cs, prev, client, next);
  }
}
