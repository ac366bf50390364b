/** What an OAuth request is answered when no other request comes in between, over every history before it, told from
    what was registered, issued, exchanged, saved and revoked (internal/auth/oauth.go; sections 4.1.2 and 4.1.3 of
    RFC 6749, sections 4.2 and 4.6 of RFC 7636). */
module OAuthEntitlement {
  import opened Options
  import opened OAuthStore
  import opened OAuthGrant
  import opened OAuthHistory

  // ---- Issuing codes ----

  /** A redirect URI is within a registered one: same scheme and host, and a path that starts with its path. */
  ghost predicate WithinRegistered(parse: string -> Option<Url>, uri: string, registered: string) {
    && parse(uri).Some? && parse(registered).Some?
    && var u, a := parse(uri).value, parse(registered).value;
       u.scheme == a.scheme && u.host == a.host && |a.path| <= |u.path| && u.path[..|a.path|] == a.path
  }

  /** A code is issued exactly to a registered client that asks for one with a redirect URI within one of its own, and
      with a known challenge method if there is a challenge. It holds what was asked, and lives for ten minutes. */
  lemma CodeIssuedExactlyWhenAllowed(parse: string -> Option<Url>, s: Store, r: AuthorizeRequest, code: string,
                                     now: int)
    ensures var out := AuthorizeCode(parse, s, r, code, now);
            && (out.Ok? <==>
                  && r.clientId != "" && r.redirectUri != "" && r.responseType == "code"
                  && r.clientId in s.clients
                  && (exists a :: a in s.clients[r.clientId].redirectUris && WithinRegistered(parse, r.redirectUri, a))
                  && (r.challenge == "" || r.challengeMethod == "plain" || r.challengeMethod == "S256"))
            && (out.Ok? ==>
                  && out.value.code == code && out.value.clientId == r.clientId
                  && out.value.redirectUri == r.redirectUri && out.value.scope == r.scope
                  && out.value.challenge == r.challenge && out.value.challengeMethod == r.challengeMethod
                  && out.value.expiresAt == now + 600)
  {
    if r.clientId in s.clients {
      var uris := s.clients[r.clientId].redirectUris;
      if parse(r.redirectUri).Some? {
        forall a ensures Allows(parse, parse(r.redirectUri).value, a) <==> WithinRegistered(parse, r.redirectUri, a) {
        }
      }
      assert RedirectAllowed(parse, r.redirectUri, uris) <==>
             exists a :: a in uris && WithinRegistered(parse, r.redirectUri, a);
    }
  }

  lemma OnlyIssuingIssues(sha: string -> string, s: System, e: Step)
    requires !e.IssueCode?
    ensures Next(sha, s, e).issued == s.issued
  {
  }

  lemma IssuingIssuesOne(sha: string -> string, s: System, e: Step)
    requires e.IssueCode?
    ensures var ac := AuthorizeCode(e.parse, s.store, e.authorize, e.code, s.clock);
            Next(sha, s, e).issued == if ac.Ok? then s.issued[e.code := ac.value] else s.issued
  {
  }

  /** Every code on record comes from an authorization request of the run, and is just what that request asked for:
      its redirect URI was within a registered one of its client. */
  lemma {:induction false} IssuedCodeHasOrigin(sha: string -> string, es: seq<Event>, code: string) returns (i: nat)
    requires LegalRun(sha, es) && code in Run(sha, es).issued
    ensures i < |es| && es[i].step.IssueCode? && es[i].step.code == code
    ensures var ac, r, parse := Run(sha, es).issued[code], es[i].step.authorize, es[i].step.parse;
            var past := Tick(Run(sha, es[..i]), es[i].later);
            && ac == AuthCode(code, r.clientId, r.redirectUri, r.scope, r.challenge, r.challengeMethod,
                              past.clock + 600)
            && r.clientId in past.store.clients
            && exists a :: a in past.store.clients[r.clientId].redirectUris && WithinRegistered(parse, r.redirectUri, a)
  {
    var before, e := es[..|es| - 1], es[|es| - 1];
    var s := Tick(Run(sha, before), e.later);
    if code in s.issued {
      i := IssuedCodeHasOrigin(sha, before, code);
      assert before[..i] == es[..i];
      StepGrows(sha, s, e.step);
    } else {
      i := |es| - 1;
      if e.step.IssueCode? {
        IssuingIssuesOne(sha, s, e.step);
        CodeIssuedExactlyWhenAllowed(e.step.parse, s.store, e.step.authorize, e.step.code, s.clock);
      } else {
        OnlyIssuingIssues(sha, s, e.step);
      }
    }
  }

  // ---- Exchanging codes ----

  /** What a token request must show for the code it names. */
  predicate Entitled(sha: string -> string, r: TokenRequest, ac: AuthCode) {
    ac.clientId == r.clientId && ac.redirectUri == r.redirectUri && MeetsChallenge(sha, r, ac)
  }

  lemma CheckPassesExactlyWhenEntitled(sha: string -> string, r: TokenRequest, ac: AuthCode)
    ensures CheckCode(sha, r, ac).Ok? <==> Entitled(sha, r, ac)
  {
  }

  /** An undisturbed exchange is granted exactly to a registered client with its secret, for a stored and unexpired
      code it is entitled to. The code is gone then, and the token holds its scope for an hour; otherwise nothing
      changes but that an expired code is dropped. */
  lemma ExchangeGrantedExactlyWhenEntitled(sha: string -> string, s: Store, r: TokenRequest, access: string,
                                           refresh: string, t0: int, t1: int, t2: int)
    ensures var (s', out) := GrantAlone(sha, s, r, access, refresh, t0, t1, t2);
            && (out.Ok? <==>
                  && r.clientId in s.clients && s.clients[r.clientId].secret == r.secret
                  && r.code in s.codes && t0 <= s.codes[r.code].expiresAt && Entitled(sha, r, s.codes[r.code]))
            && (out.Ok? ==>
                  && out.value == Token(access, refresh, r.clientId, s.codes[r.code].scope, t2 + 3600)
                  && s' == Store(s.clients, s.codes - {r.code}, s.tokens[access := out.value]))
            && (out.Err? ==>
                  && s'.clients == s.clients && s'.tokens == s.tokens
                  && (s'.codes == s.codes ||
                      (r.code in s.codes && s.codes[r.code].expiresAt < t0 && s'.codes == s.codes - {r.code})))
            && (out == Err(CodeExpired) && s.codes[r.code].expiresAt < t1 ==> s'.codes == s.codes - {r.code})
  {
    if CheckClient(s, r).Ok? && r.code in s.codes {
      CheckPassesExactlyWhenEntitled(sha, r, s.codes[r.code]);
    }
  }

  /** Why a token request is refused, in the order of the checks. */
  lemma RefusalTellsWhy(sha: string -> string, s: Store, r: TokenRequest, access: string, refresh: string, t0: int,
                        t1: int, t2: int)
    ensures var out := GrantAlone(sha, s, r, access, refresh, t0, t1, t2).1;
            if r.clientId !in s.clients || s.clients[r.clientId].secret != r.secret then out == Err(InvalidClient)
            else if r.code !in s.codes then out == Err(InvalidGrant)
            else if s.codes[r.code].expiresAt < t0 then out == Err(CodeExpired)
            else if s.codes[r.code].clientId != r.clientId then out == Err(InvalidClient)
            else if s.codes[r.code].redirectUri != r.redirectUri then out == Err(InvalidRequest)
            else if s.codes[r.code].challenge != "" && r.verifier == "" then out == Err(InvalidRequest)
            else if s.codes[r.code].challenge != "" && s.codes[r.code].challengeMethod !in {"plain", "S256"}
            then out == Err(InvalidRequest)
            else if !MeetsChallenge(sha, r, s.codes[r.code]) then out == Err(InvalidGrant)
            else out.Ok?
  {
  }

  /** Over every history: a token request whose steps follow one another is granted exactly if it names a registered
      client and its secret, and a code on record that was not exchanged, has not expired, and was issued to the same
      client and redirect URI with a challenge that the verifier meets. */
  lemma UndisturbedRequestIsGranted(sha: string -> string, es: seq<Event>, c: nat, r: TokenRequest, access: string,
                                    refresh: string)
    requires LegalRun(sha, es) && c !in Run(sha, es).threads
    ensures var s := Run(sha, es);
            var checked := Next(sha, Next(sha, s, BeginToken(c, r)), DoCheckClient(c));
            var read := Next(sha, Next(sha, checked, DoReadCode(c)), DoDropStaleCode(c));
            var s' := Next(sha, Next(sha, read, DoSaveToken(c, access, refresh)), DoDeleteCode(c));
            && c in s'.threads
            && (s'.threads[c].Granted? <==>
                  && r.clientId in s.store.clients && s.store.clients[r.clientId].secret == r.secret
                  && r.code in s.issued && r.code !in s.answered && s.clock <= s.issued[r.code].expiresAt
                  && Entitled(sha, r, s.issued[r.code]))
  {
    var s := Run(sha, es);
    CodeReadRefinesHistory(sha, es, r.code, s.clock);
    EveryRunKeeps(sha, es);
    UndisturbedGrant(sha, s, c, r, access, refresh);
    ExchangeGrantedExactlyWhenEntitled(sha, s.store, r, access, refresh, s.clock, s.clock, s.clock);
  }

  // ---- Revoking and validating tokens ----

  lemma Overwritten(s: System, c: nat, t: Thread, u: Thread)
    ensures Put(Put(s, c, t), c, u) == Put(s, c, u)
  {
    assert s.threads[c := t][c := u] == s.threads[c := u];
  }

  lemma RevocationReads(sha: string -> string, s: System, c: nat, tok: string)
    requires At(s, c) == Some(RevokeBegun(tok))
    ensures Next(sha, s, DoReadForRevoke(c)) ==
            Put(s, c, match ReadToken(s.store, tok, s.clock)
                      case Ok(_) => RevokeFound(tok)
                      case Err(error) => if error == TokenExpired then RevokeStale(tok) else Refused(InvalidGrant))
  {
  }

  lemma RevocationStarts(sha: string -> string, s: System, c: nat, tok: string)
    requires c !in s.threads
    ensures Next(sha, Next(sha, s, BeginRevoke(c, tok)), DoReadForRevoke(c)) ==
            Put(s, c, match ReadToken(s.store, tok, s.clock)
                      case Ok(_) => RevokeFound(tok)
                      case Err(error) => if error == TokenExpired then RevokeStale(tok) else Refused(InvalidGrant))
  {
    var begun := Put(s, c, RevokeBegun(tok));
    assert Next(sha, s, BeginRevoke(c, tok)) == begun;
    RevocationReads(sha, begun, c, tok);
    Overwritten(s, c, RevokeBegun(tok), Next(sha, begun, DoReadForRevoke(c)).threads[c]);
  }

  /** From the read on: drop the token if it has expired, delete it if it has not. */
  lemma RevocationEnds(sha: string -> string, s: System, c: nat, tok: string)
    requires c in s.threads
    requires s.threads[c] in {RevokeFound(tok), RevokeStale(tok), Refused(InvalidGrant)}
    ensures var s' := Next(sha, Next(sha, s, DoDropForRevoke(c)), DoDeleteForRevoke(c));
            && c in s'.threads
            && match s.threads[c]
               case RevokeFound(_) =>
                 && s'.store == RemoveToken(s.store, tok).0
                 && (if tok in s.store.tokens then s'.threads[c] == Revoked(tok) && s'.revoked == s.revoked + {tok}
                     else s'.threads[c] == Refused(InvalidGrant) && s'.revoked == s.revoked)
               case RevokeStale(_) =>
                 && s'.store == DropStaleToken(s.store, tok, s.clock)
                 && s'.threads[c] == Refused(InvalidGrant) && s'.revoked == s.revoked
               case _ => s' == s
  {
  }

  /** Taken one after the other, the steps of a revocation do what the server object's Revoke does. */
  lemma UndisturbedRevoke(sha: string -> string, s: System, c: nat, tok: string)
    requires c !in s.threads
    ensures var read := Next(sha, Next(sha, s, BeginRevoke(c, tok)), DoReadForRevoke(c));
            var s' := Next(sha, Next(sha, read, DoDropForRevoke(c)), DoDeleteForRevoke(c));
            var (store, out) := RevokeAlone(s.store, tok, s.clock, s.clock);
            && s'.store == store && c in s'.threads
            && match out
               case Ok(_) => s'.threads[c] == Revoked(tok) && s'.revoked == s.revoked + {tok}
               case Err(error) => s'.threads[c] == Refused(error) && s'.revoked == s.revoked
  {
    RevocationStarts(sha, s, c, tok);
    RevocationEnds(sha, Next(sha, Next(sha, s, BeginRevoke(c, tok)), DoReadForRevoke(c)), c, tok);
  }

  lemma ValidationReads(sha: string -> string, s: System, c: nat, tok: string)
    requires At(s, c) == Some(ValidateBegun(tok))
    ensures Next(sha, s, DoReadForValidate(c)) ==
            Put(s, c, match ReadToken(s.store, tok, s.clock)
                      case Ok(info) => ValidateFound(tok, info, s.clock)
                      case Err(error) => if error == TokenExpired then ValidateStale(tok) else Refused(error))
  {
  }

  lemma ValidationStarts(sha: string -> string, s: System, c: nat, tok: string)
    requires c !in s.threads
    ensures Next(sha, Next(sha, s, BeginValidate(c, tok)), DoReadForValidate(c)) ==
            Put(s, c, match ReadToken(s.store, tok, s.clock)
                      case Ok(info) => ValidateFound(tok, info, s.clock)
                      case Err(error) => if error == TokenExpired then ValidateStale(tok) else Refused(error))
  {
    var begun := Put(s, c, ValidateBegun(tok));
    assert Next(sha, s, BeginValidate(c, tok)) == begun;
    ValidationReads(sha, begun, c, tok);
    Overwritten(s, c, ValidateBegun(tok), Next(sha, begun, DoReadForValidate(c)).threads[c]);
  }

  /** With the token found: decide and, if it has expired meanwhile, delete it. */
  lemma ValidationDecides(sha: string -> string, s: System, c: nat)
    requires c in s.threads && s.threads[c].ValidateFound?
    ensures var found := s.threads[c];
            var s' := Next(sha, Next(sha, s, DoDecide(c)), DoDeleteExpired(c));
            && c in s'.threads
            && if found.info.expiresAt < s.clock
               then s'.store == RemoveToken(s.store, found.tok).0 && s'.threads[c] == Refused(TokenExpired)
               else s'.store == s.store && s'.threads[c].Accepted?
  {
  }

  lemma EndedValidationStays(sha: string -> string, s: System, c: nat)
    requires c in s.threads && s.threads[c].Refused?
    ensures Next(sha, s, DoDropForValidate(c)) == Next(sha, s, DoDecide(c)) == Next(sha, s, DoDeleteExpired(c)) == s
  {
  }

  /** Taken one after the other, the steps of a validation do what the server object's ValidateToken does. */
  lemma UndisturbedValidate(sha: string -> string, s: System, c: nat, tok: string)
    requires c !in s.threads
    ensures var read := Next(sha, Next(sha, s, BeginValidate(c, tok)), DoReadForValidate(c));
            var decided := Next(sha, Next(sha, read, DoDropForValidate(c)), DoDecide(c));
            var s' := Next(sha, decided, DoDeleteExpired(c));
            var (store, out) := ValidateAlone(s.store, tok, s.clock, s.clock, s.clock);
            && s'.store == store && c in s'.threads
            && match out
               case Ok(_) => s'.threads[c].Accepted?
               case Err(error) => s'.threads[c] == Refused(error)
  {
    var read := Next(sha, Next(sha, s, BeginValidate(c, tok)), DoReadForValidate(c));
    ValidationStarts(sha, s, c, tok);
    var dropped := Next(sha, read, DoDropForValidate(c));
    if read.threads[c].ValidateFound? {
      assert dropped == read;
      ValidationDecides(sha, read, c);
    } else {
      assert dropped.threads[c].Refused?;
      EndedValidationStays(sha, dropped, c);
    }
  }

  /** Over every history: a revocation succeeds exactly for a token that was saved, not revoked, and has not expired;
      that token is not stored any more in either case, and all others stay. */
  lemma RevocationRemovesExactlyItsToken(sha: string -> string, es: seq<Event>, tok: string)
    requires LegalRun(sha, es)
    ensures var s := Run(sha, es);
            var (store, out) := RevokeAlone(s.store, tok, s.clock, s.clock);
            && (out.Ok? <==> tok in s.saved && tok !in s.revoked && s.clock <= s.saved[tok].expiresAt)
            && (out.Err? ==> out == Err(InvalidGrant))
            && store.codes == s.store.codes && store.clients == s.store.clients
            && store.tokens == s.store.tokens - {tok}
  {
    TokenReadRefinesHistory(sha, es, tok, Run(sha, es).clock);
  }

  /** Over every history: a validation accepts exactly a token that was saved, not revoked, and has not expired; a
      refused one is not stored any more. */
  lemma ValidationAcceptsExactlyLiveTokens(sha: string -> string, es: seq<Event>, tok: string)
    requires LegalRun(sha, es)
    ensures var s := Run(sha, es);
            var (store, out) := ValidateAlone(s.store, tok, s.clock, s.clock, s.clock);
            && (out.Ok? <==> tok in s.saved && tok !in s.revoked && s.clock <= s.saved[tok].expiresAt)
            && (out.Ok? ==> store == s.store)
            && (forall t :: t in s.store.tokens && s.clock <= s.store.tokens[t].expiresAt ==>
                  t in store.tokens && store.tokens[t] == s.store.tokens[t])
            && (out.Err? ==> tok !in store.tokens)
  {
    TokenReadRefinesHistory(sha, es, tok, Run(sha, es).clock);
  }
}
