/** The authorization-code grant, revocation and token validation over the in-memory store
    (internal/auth/oauth.go; sections 4.1.2 and 4.1.3 of RFC 6749, section 4.6 of RFC 7636). Each store operation is
    atomic, a request is a sequence of them, and any number of requests interleave. */
module OAuthGrant {
  import opened Options
  import opened OAuthStore

  const CODE_LIFETIME := 600
  const TOKEN_LIFETIME := 3600

  // ---- Authorization requests ----

  /** The parts of a parsed URL the redirect check looks at. */
  datatype Url = Url(scheme: string, host: string, path: string)

  datatype AuthorizeRequest = AuthorizeRequest(clientId: string, redirectUri: string, responseType: string,
                                               scope: string, challenge: string, challengeMethod: string)

  predicate Allows(parse: string -> Option<Url>, u: Url, allowed: string) {
    var a := parse(allowed);
    a.Some? && u.scheme == a.value.scheme && u.host == a.value.host && a.value.path <= u.path
  }

  method IsValidRedirectUri(parse: string -> Option<Url>, redirectUri: string, allowedUris: seq<string>)
    returns (ok: bool)
    ensures ok <==> RedirectAllowed(parse, redirectUri, allowedUris)
  {
    var u := parse(redirectUri);
    if u.None? {
      return false;
    }
    for i := 0 to |allowedUris|
      invariant forall j :: 0 <= j < i ==> !Allows(parse, u.value, allowedUris[j])
    {
      if Allows(parse, u.value, allowedUris[i]) {
        return true;
      }
    }
    ok := false;
  }

  /** Same scheme and host, and a registered path as a prefix. */
  predicate RedirectAllowed(parse: string -> Option<Url>, redirectUri: string, allowedUris: seq<string>) {
    var u := parse(redirectUri);
    u.Some? && exists a :: a in allowedUris && Allows(parse, u.value, a)
  }

  /** The code an authorization request is answered with, or the error. */
  function AuthorizeCode(parse: string -> Option<Url>, s: Store, r: AuthorizeRequest, code: string, now: int)
    : Result<AuthCode>
  {
    if r.clientId == "" || r.redirectUri == "" || r.responseType == "" then Err(InvalidRequest)
    else if r.responseType != "code" then Err(UnsupportedGrantType)
    else
      var client := ReadClient(s, r.clientId);
      if client.Err? then Err(InvalidClient)
      else if !RedirectAllowed(parse, r.redirectUri, client.value.redirectUris) then Err(InvalidRequest)
      else if r.challenge != "" && r.challengeMethod != "plain" && r.challengeMethod != "S256" then Err(InvalidRequest)
      else Ok(AuthCode(code, r.clientId, r.redirectUri, r.scope, r.challenge, r.challengeMethod, now + CODE_LIFETIME))
  }

  // ---- Token requests ----

  datatype TokenRequest = TokenRequest(clientId: string, secret: string, code: string, redirectUri: string,
                                       verifier: string)

  function ComputeChallenge(sha: string -> string, verifier: string, challengeMethod: string): Result<string> {
    if challengeMethod == "plain" then Ok(verifier)
    else if challengeMethod == "S256" then Ok(sha(verifier))
    else Err(InvalidRequest)
  }

  function CheckClient(s: Store, r: TokenRequest): Result<Client> {
    var client := ReadClient(s, r.clientId);
    if client.Ok? && client.value.secret != r.secret then Err(InvalidClient) else client
  }

  /** The checks between reading the code and saving the token. */
  function CheckCode(sha: string -> string, r: TokenRequest, ac: AuthCode): Result<()> {
    if ac.clientId != r.clientId then Err(InvalidClient)
    else if ac.redirectUri != r.redirectUri then Err(InvalidRequest)
    else if ac.challenge == "" then Ok(())
    else if r.verifier == "" then Err(InvalidRequest)
    else
      match ComputeChallenge(sha, r.verifier, ac.challengeMethod)
      case Err(e) => Err(e)
      case Ok(computed) => if computed != ac.challenge then Err(InvalidGrant) else Ok(())
  }

  function NewToken(r: TokenRequest, ac: AuthCode, access: string, refresh: string, now: int): Token {
    Token(access, refresh, r.clientId, ac.scope, now + TOKEN_LIFETIME)
  }

  // ---- The server object, one request at a time ----

  /** A token request nothing interleaves with: it reads the code at t0 (and t1), and saves the token at t2. */
  function GrantAlone(sha: string -> string, s: Store, r: TokenRequest, access: string, refresh: string, t0: int,
                      t1: int, t2: int): (Store, Result<Token>) {
    var client := CheckClient(s, r);
    if client.Err? then (s, Err(client.error))
    else
      var (s1, got) := GetCodeAlone(s, r.code, t0, t1);
      if got.Err? then (s1, Err(got.error))
      else
        var checked := CheckCode(sha, r, got.value);
        if checked.Err? then (s1, Err(checked.error))
        else
          var t := NewToken(r, got.value, access, refresh, t2);
          var (s2, removed) := RemoveCode(PutToken(s1, t), r.code);
          (s2, if removed.Err? then Err(removed.error) else Ok(t))
  }

  function ValidateAlone(s: Store, tok: string, t0: int, t1: int, t2: int): (Store, Result<()>) {
    var (s1, got) := GetTokenAlone(s, tok, t0, t1);
    if got.Err? then (s1, Err(got.error))
    else if got.value.expiresAt < t2 then (RemoveToken(s1, tok).0, Err(TokenExpired))
    else (s1, Ok(()))
  }

  function RevokeAlone(s: Store, tok: string, t0: int, t1: int): (Store, Result<()>) {
    var (s1, got) := GetTokenAlone(s, tok, t0, t1);
    if got.Err? then (s1, Err(InvalidGrant)) else RemoveToken(s1, tok)
  }

  class OAuthServer {
    const store: MemoryStorage

    constructor (store: MemoryStorage)
      ensures this.store == store
    {
      this.store := store;
    }

    method Authorize(parse: string -> Option<Url>, r: AuthorizeRequest, code: string, now: int)
      returns (out: Result<AuthCode>)
      modifies store
      ensures out == AuthorizeCode(parse, old(store.Contents()), r, code, now)
      ensures store.Contents() == if out.Ok? then PutCode(old(store.Contents()), out.value) else old(store.Contents())
    {
      if r.clientId == "" || r.redirectUri == "" || r.responseType == "" {
        return Err(InvalidRequest);
      }
      if r.responseType != "code" {
        return Err(UnsupportedGrantType);
      }
      var client := store.GetClient(r.clientId);
      if client.Err? {
        return Err(InvalidClient);
      }
      var ok := IsValidRedirectUri(parse, r.redirectUri, client.value.redirectUris);
      if !ok {
        return Err(InvalidRequest);
      }
      if r.challenge != "" && r.challengeMethod != "plain" && r.challengeMethod != "S256" {
        return Err(InvalidRequest);
      }
      var ac := AuthCode(code, r.clientId, r.redirectUri, r.scope, r.challenge, r.challengeMethod, now + CODE_LIFETIME);
      store.SaveAuthorizationCode(ac);
      out := Ok(ac);
    }

    method Grant(sha: string -> string, r: TokenRequest, access: string, refresh: string, t0: int, t1: int, t2: int)
      returns (out: Result<Token>)
      modifies store
      ensures (store.Contents(), out) == GrantAlone(sha, old(store.Contents()), r, access, refresh, t0, t1, t2)
    {
      var client := store.GetClient(r.clientId);
      if client.Err? {
        return Err(client.error);
      }
      if client.value.secret != r.secret {
        return Err(InvalidClient);
      }
      var ac := store.GetAuthorizationCode(r.code, t0, t1);
      if ac.Err? {
        return Err(ac.error);
      }
      var checked := CheckCode(sha, r, ac.value);
      if checked.Err? {
        return Err(checked.error);
      }
      var token := NewToken(r, ac.value, access, refresh, t2);
      store.SaveToken(token);
      var removed := store.DeleteAuthorizationCode(r.code);
      if removed.Err? {
        return Err(removed.error);
      }
      out := Ok(token);
    }

    method ValidateToken(tok: string, t0: int, t1: int, t2: int) returns (out: Result<()>)
      modifies store
      ensures (store.Contents(), out) == ValidateAlone(old(store.Contents()), tok, t0, t1, t2)
    {
      var t := store.GetToken(tok, t0, t1);
      if t.Err? {
        return Err(t.error);
      }
      if t.value.expiresAt < t2 {
        var _ := store.DeleteToken(tok);
        return Err(TokenExpired);
      }
      out := Ok(());
    }

    method Revoke(tok: string, t0: int, t1: int) returns (out: Result<()>)
      modifies store
      ensures (store.Contents(), out) == RevokeAlone(old(store.Contents()), tok, t0, t1)
    {
      var t := store.GetToken(tok, t0, t1);
      if t.Err? {
        return Err(InvalidGrant);
      }
      out := store.DeleteToken(tok);
    }
  }

  // ---- Interleaved requests ----

  /** Where a request stands. */
  datatype Thread =
    | TokenBegun(req: TokenRequest)
    | ClientChecked(req: TokenRequest)
    | CodeStale(req: TokenRequest)
    | CodeInHand(req: TokenRequest, ac: AuthCode, readAt: int)
    | TokenSaved(req: TokenRequest, ac: AuthCode, readAt: int, token: Token)
    | Granted(req: TokenRequest, ac: AuthCode, readAt: int, token: Token)
    | RevokeBegun(tok: string)
    | RevokeStale(tok: string)
    | RevokeFound(tok: string)
    | Revoked(tok: string)
    | ValidateBegun(tok: string)
    | ValidateStale(tok: string)
    | ValidateFound(tok: string, info: Token, readAt: int)
    | ValidateExpired(tok: string)
    | Accepted(tok: string, readAt: int, at: int)
    | Refused(error: Error)

  /** `issued` and `saved` record every code and token ever stored, `answered` the codes exchanged for a successful
      token response in order, `revoked` the tokens a revocation removed. They are not read by any step. */
  datatype System = System(store: Store, clock: int, threads: map<nat, Thread>,
                           issued: map<string, AuthCode>, answered: seq<string>,
                           saved: map<string, Token>, revoked: set<string>)

  const StartSystem := System(EmptyStore, 0, map[], map[], [], map[], {})

  datatype Step =
    | Register(client: Client)
    | IssueCode(parse: string -> Option<Url>, authorize: AuthorizeRequest, code: string)
    | BeginToken(c: nat, token: TokenRequest)
    | DoCheckClient(c: nat)
    | DoReadCode(c: nat)
    | DoDropStaleCode(c: nat)
    | DoSaveToken(c: nat, access: string, refresh: string)
    | DoDeleteCode(c: nat)
    | BeginRevoke(c: nat, tok: string)
    | DoReadForRevoke(c: nat)
    | DoDropForRevoke(c: nat)
    | DoDeleteForRevoke(c: nat)
    | BeginValidate(c: nat, tok: string)
    | DoReadForValidate(c: nat)
    | DoDropForValidate(c: nat)
    | DoDecide(c: nat)
    | DoDeleteExpired(c: nat)

  function At(s: System, c: nat): Option<Thread> {
    if c in s.threads then Some(s.threads[c]) else None
  }

  function Put(s: System, c: nat, t: Thread): System {
    s.(threads := s.threads[c := t])
  }

  /** Random codes and access tokens are assumed never to repeat. */
  predicate FreshValues(s: System, e: Step) {
    match e
    case IssueCode(_, _, code) => code !in s.issued
    case DoSaveToken(_, access, _) => access !in s.saved
    case _ => true
  }

  predicate IsTokenStep(e: Step) {
    e.BeginToken? || e.DoCheckClient? || e.DoReadCode? || e.DoDropStaleCode? || e.DoSaveToken? || e.DoDeleteCode?
  }

  predicate IsRevokeStep(e: Step) {
    e.BeginRevoke? || e.DoReadForRevoke? || e.DoDropForRevoke? || e.DoDeleteForRevoke?
  }

  predicate IsValidateStep(e: Step) {
    e.BeginValidate? || e.DoReadForValidate? || e.DoDropForValidate? || e.DoDecide? || e.DoDeleteExpired?
  }

  function NextGrant(sha: string -> string, s: System, e: Step): System
    requires IsTokenStep(e)
  {
    match e
    case BeginToken(c, r) => if c in s.threads then s else Put(s, c, TokenBegun(r))
    case DoCheckClient(c) =>
      (match At(s, c)
       case Some(TokenBegun(r)) =>
         var client := CheckClient(s.store, r);
         Put(s, c, if client.Ok? then ClientChecked(r) else Refused(client.error))
       case _ => s)
    case DoReadCode(c) =>
      (match At(s, c)
       case Some(ClientChecked(r)) =>
         (match ReadCode(s.store, r.code, s.clock)
          case Ok(ac) => Put(s, c, CodeInHand(r, ac, s.clock))
          case Err(CodeExpired) => Put(s, c, CodeStale(r))
          case Err(error) => Put(s, c, Refused(error)))
       case _ => s)
    case DoDropStaleCode(c) =>
      (match At(s, c)
       case Some(CodeStale(r)) => Put(s.(store := DropStaleCode(s.store, r.code, s.clock)), c, Refused(CodeExpired))
       case _ => s)
    case DoSaveToken(c, access, refresh) =>
      (match At(s, c)
       case Some(CodeInHand(r, ac, readAt)) =>
         var checked := CheckCode(sha, r, ac);
         if checked.Err? then Put(s, c, Refused(checked.error))
         else
           var t := NewToken(r, ac, access, refresh, s.clock);
           Put(s.(store := PutToken(s.store, t), saved := s.saved[access := t]), c, TokenSaved(r, ac, readAt, t))
       case _ => s)
    case DoDeleteCode(c) =>
      (match At(s, c)
       case Some(TokenSaved(r, ac, readAt, t)) =>
         var (store, removed) := RemoveCode(s.store, r.code);
         if removed.Err? then Put(s, c, Refused(removed.error))
         else Put(s.(store := store, answered := s.answered + [r.code]), c, Granted(r, ac, readAt, t))
       case _ => s)
  }

  function NextRevoke(s: System, e: Step): System
    requires IsRevokeStep(e)
  {
    match e
    case BeginRevoke(c, tok) => if c in s.threads then s else Put(s, c, RevokeBegun(tok))
    case DoReadForRevoke(c) =>
      (match At(s, c)
       case Some(RevokeBegun(tok)) =>
         (match ReadToken(s.store, tok, s.clock)
          case Ok(_) => Put(s, c, RevokeFound(tok))
          case Err(TokenExpired) => Put(s, c, RevokeStale(tok))
          case Err(_) => Put(s, c, Refused(InvalidGrant)))
       case _ => s)
    case DoDropForRevoke(c) =>
      (match At(s, c)
       case Some(RevokeStale(tok)) => Put(s.(store := DropStaleToken(s.store, tok, s.clock)), c, Refused(InvalidGrant))
       case _ => s)
    case DoDeleteForRevoke(c) =>
      (match At(s, c)
       case Some(RevokeFound(tok)) =>
         var (store, removed) := RemoveToken(s.store, tok);
         if removed.Err? then Put(s, c, Refused(removed.error))
         else Put(s.(store := store, revoked := s.revoked + {tok}), c, Revoked(tok))
       case _ => s)
  }

  function NextValidate(s: System, e: Step): System
    requires IsValidateStep(e)
  {
    match e
    case BeginValidate(c, tok) => if c in s.threads then s else Put(s, c, ValidateBegun(tok))
    case DoReadForValidate(c) =>
      (match At(s, c)
       case Some(ValidateBegun(tok)) =>
         (match ReadToken(s.store, tok, s.clock)
          case Ok(info) => Put(s, c, ValidateFound(tok, info, s.clock))
          case Err(TokenExpired) => Put(s, c, ValidateStale(tok))
          case Err(error) => Put(s, c, Refused(error)))
       case _ => s)
    case DoDropForValidate(c) =>
      (match At(s, c)
       case Some(ValidateStale(tok)) =>
         Put(s.(store := DropStaleToken(s.store, tok, s.clock)), c, Refused(TokenExpired))
       case _ => s)
    case DoDecide(c) =>
      (match At(s, c)
       case Some(ValidateFound(tok, info, readAt)) =>
         Put(s, c, if info.expiresAt < s.clock then ValidateExpired(tok) else Accepted(tok, readAt, s.clock))
       case _ => s)
    case DoDeleteExpired(c) =>
      (match At(s, c)
       case Some(ValidateExpired(tok)) => Put(s.(store := RemoveToken(s.store, tok).0), c, Refused(TokenExpired))
       case _ => s)
  }

  function NextIssue(s: System, parse: string -> Option<Url>, r: AuthorizeRequest, code: string): System {
    var ac := AuthorizeCode(parse, s.store, r, code, s.clock);
    if ac.Err? then s else s.(store := PutCode(s.store, ac.value), issued := s.issued[code := ac.value])
  }

  /** One atomic step at the system's clock. A step its request is not ready for does nothing. */
  function Next(sha: string -> string, s: System, e: Step): System {
    if e.Register? then s.(store := AddClient(s.store, e.client).0)
    else if e.IssueCode? then NextIssue(s, e.parse, e.authorize, e.code)
    else if IsTokenStep(e) then NextGrant(sha, s, e)
    else if IsRevokeStep(e) then NextRevoke(s, e)
    else NextValidate(s, e)
  }

  /** Time passes, then one step is taken. */
  datatype Event = Event(later: nat, step: Step)

  function Tick(s: System, later: nat): System {
    s.(clock := s.clock + later)
  }

  function Run(sha: string -> string, es: seq<Event>): System {
    if es == [] then StartSystem
    else
      var e := es[|es| - 1];
      Next(sha, Tick(Run(sha, es[..|es| - 1]), e.later), e.step)
  }

  ghost predicate LegalRun(sha: string -> string, es: seq<Event>) {
    es == [] ||
    (var before, e := es[..|es| - 1], es[|es| - 1];
     LegalRun(sha, before) && FreshValues(Run(sha, before), e.step))
  }

  // ---- What every interleaving keeps ----

  /** A code is stored exactly while it is issued, unanswered and not dropped; a missing unanswered code has expired. */
  ghost predicate CodesTracked(s: System) {
    && (forall k :: k in s.store.codes ==> k in s.issued && s.issued[k] == s.store.codes[k] && k !in s.answered)
    && (forall k :: k in s.issued && k !in s.store.codes && k !in s.answered ==> s.issued[k].expiresAt < s.clock)
    && (forall k :: k in s.answered ==> k in s.issued)
    && (forall i, j :: 0 <= i < j < |s.answered| ==> s.answered[i] != s.answered[j])
    && (forall k :: k in s.issued ==>
          && s.issued[k].code == k
          && (s.issued[k].challenge != "" ==>
                s.issued[k].challengeMethod == "plain" || s.issued[k].challengeMethod == "S256"))
  }

  /** A token is stored while it is saved and not revoked; a missing unrevoked token has expired. */
  ghost predicate TokensTracked(s: System) {
    && (forall k :: k in s.store.tokens ==> k in s.saved && s.saved[k] == s.store.tokens[k] && k !in s.revoked)
    && (forall k :: k in s.saved && k !in s.store.tokens && k !in s.revoked ==> s.saved[k].expiresAt < s.clock)
    && (forall k :: k in s.revoked ==> k in s.saved)
    && (forall k :: k in s.saved ==> s.saved[k].accessToken == k)
  }

  /** What a request in hand has seen. */
  ghost predicate ThreadOk(sha: string -> string, s: System, t: Thread) {
    match t
    case CodeInHand(r, ac, readAt) =>
      r.code in s.issued && s.issued[r.code] == ac && readAt <= ac.expiresAt && readAt <= s.clock
    case TokenSaved(r, ac, readAt, token) =>
      && r.code in s.issued && s.issued[r.code] == ac && readAt <= ac.expiresAt && CheckCode(sha, r, ac) == Ok(())
      && token.accessToken in s.saved && s.saved[token.accessToken] == token && token.clientId == ac.clientId
      && token.scope == ac.scope
    case Granted(r, ac, readAt, token) =>
      && r.code in s.issued && s.issued[r.code] == ac && readAt <= ac.expiresAt && CheckCode(sha, r, ac) == Ok(())
      && token.accessToken in s.saved && s.saved[token.accessToken] == token && token.clientId == ac.clientId
      && token.scope == ac.scope
      && r.code in s.answered
    case ValidateFound(tok, info, readAt) =>
      tok in s.saved && s.saved[tok] == info && readAt <= info.expiresAt && readAt <= s.clock
    case ValidateExpired(tok) => tok in s.saved && s.saved[tok].expiresAt < s.clock
    case Accepted(tok, readAt, at) => tok in s.saved && readAt <= at <= s.saved[tok].expiresAt && at <= s.clock
    case _ => true
  }

  ghost predicate SystemInv(sha: string -> string, s: System) {
    && CodesTracked(s)
    && TokensTracked(s)
    && forall c :: c in s.threads ==> ThreadOk(sha, s, s.threads[c])
  }

  lemma TickKeeps(sha: string -> string, s: System, later: nat)
    requires SystemInv(sha, s)
    ensures SystemInv(sha, Tick(s, later))
  {
    var s' := Tick(s, later);
    forall c | c in s'.threads ensures ThreadOk(sha, s', s'.threads[c]) {
      assert ThreadOk(sha, s, s.threads[c]);
    }
  }

  /** The records only grow. */
  ghost predicate Grows(s: System, s': System) {
    && s'.clock == s.clock
    && (forall k :: k in s.issued ==> k in s'.issued && s'.issued[k] == s.issued[k])
    && (forall k :: k in s.saved ==> k in s'.saved && s'.saved[k] == s.saved[k])
    && (forall k :: k in s.answered ==> k in s'.answered)
  }

  lemma ThreadsKeep(sha: string -> string, s: System, s': System, c: Option<nat>)
    requires (forall d :: d in s.threads ==> ThreadOk(sha, s, s.threads[d])) && Grows(s, s')
    requires if c.None? then s'.threads == s.threads
             else c.value in s'.threads && s'.threads == s.threads[c.value := s'.threads[c.value]]
                  && ThreadOk(sha, s', s'.threads[c.value])
    ensures forall d :: d in s'.threads ==> ThreadOk(sha, s', s'.threads[d])
  {
    forall d | d in s'.threads ensures ThreadOk(sha, s', s'.threads[d]) {
      if c != Some(d) {
        assert ThreadOk(sha, s, s.threads[d]);
      }
    }
  }

  ghost predicate SameCodes(s: System, s': System) {
    s'.store.codes == s.store.codes && s'.issued == s.issued && s'.answered == s.answered && s'.clock == s.clock
  }

  lemma TokenStepsSameCodes(sha: string -> string, s: System, e: Step)
    requires IsTokenStep(e) && !e.DoDropStaleCode? && !e.DoDeleteCode?
    ensures SameCodes(s, NextGrant(sha, s, e))
  {
  }

  lemma OtherStepsSameCodes(s: System, e: Step)
    ensures IsRevokeStep(e) ==> SameCodes(s, NextRevoke(s, e))
    ensures IsValidateStep(e) ==> SameCodes(s, NextValidate(s, e))
  {
  }

  lemma CodesUntouched(sha: string -> string, s: System, e: Step)
    requires !e.IssueCode? && !e.DoDropStaleCode? && !e.DoDeleteCode?
    ensures SameCodes(s, Next(sha, s, e))
  {
    if IsTokenStep(e) {
      TokenStepsSameCodes(sha, s, e);
    } else {
      OtherStepsSameCodes(s, e);
    }
  }

  lemma IssuedCodeIsTracked(sha: string -> string, s: System, e: Step)
    requires CodesTracked(s) && FreshValues(s, e) && e.IssueCode?
    ensures CodesTracked(Next(sha, s, e))
  {
    var ac := AuthorizeCode(e.parse, s.store, e.authorize, e.code, s.clock);
    if ac.Ok? {
      var s' := Next(sha, s, e);
      assert s'.store.codes == s.store.codes[e.code := ac.value] && s'.issued == s.issued[e.code := ac.value];
      assert s'.answered == s.answered;
    }
  }

  lemma AnsweredCodeIsTracked(sha: string -> string, s: System, c: nat)
    requires SystemInv(sha, s)
    ensures CodesTracked(Next(sha, s, DoDeleteCode(c)))
  {
    var s' := Next(sha, s, DoDeleteCode(c));
    if s'.answered != s.answered {
      assert ThreadOk(sha, s, s.threads[c]);
      var code := s.threads[c].req.code;
      assert s'.answered == s.answered + [code] && s'.store.codes == s.store.codes - {code} && s'.issued == s.issued;
    } else {
      assert s'.store.codes == s.store.codes && s'.issued == s.issued;
    }
  }

  lemma DroppedCodeIsTracked(sha: string -> string, s: System, c: nat)
    requires SystemInv(sha, s)
    ensures CodesTracked(Next(sha, s, DoDropStaleCode(c)))
  {
    var s' := Next(sha, s, DoDropStaleCode(c));
    assert s'.issued == s.issued && s'.answered == s.answered && s'.clock == s.clock;
    assert forall k :: k in s'.store.codes ==> k in s.store.codes && s'.store.codes[k] == s.store.codes[k];
    assert forall k :: k in s.store.codes && k !in s'.store.codes ==> s.store.codes[k].expiresAt < s.clock;
  }

  lemma CodesStepKeeps(sha: string -> string, s: System, e: Step)
    requires SystemInv(sha, s) && FreshValues(s, e)
    ensures CodesTracked(Next(sha, s, e))
  {
    if e.IssueCode? {
      IssuedCodeIsTracked(sha, s, e);
    } else if e.DoDeleteCode? {
      AnsweredCodeIsTracked(sha, s, e.c);
    } else if e.DoDropStaleCode? {
      DroppedCodeIsTracked(sha, s, e.c);
    } else {
      CodesUntouched(sha, s, e);
    }
  }

  /** The steps that delete a token because it expired. */
  predicate DropsToken(e: Step) {
    e.DoDropForRevoke? || e.DoDropForValidate? || e.DoDeleteExpired?
  }

  ghost predicate SameTokens(s: System, s': System) {
    s'.store.tokens == s.store.tokens && s'.saved == s.saved && s'.revoked == s.revoked && s'.clock == s.clock
  }

  lemma TokenStepsSameTokens(sha: string -> string, s: System, e: Step)
    requires IsTokenStep(e) && !e.DoSaveToken?
    ensures SameTokens(s, NextGrant(sha, s, e))
  {
  }

  lemma RevokeStepsSameTokens(s: System, e: Step)
    requires IsRevokeStep(e) && !e.DoDeleteForRevoke? && !e.DoDropForRevoke?
    ensures SameTokens(s, NextRevoke(s, e))
  {
  }

  lemma ValidateStepsSameTokens(s: System, e: Step)
    requires IsValidateStep(e) && !e.DoDropForValidate? && !e.DoDeleteExpired?
    ensures SameTokens(s, NextValidate(s, e))
  {
  }

  lemma TokensUntouched(sha: string -> string, s: System, e: Step)
    requires !e.DoSaveToken? && !e.DoDeleteForRevoke? && !DropsToken(e)
    ensures SameTokens(s, Next(sha, s, e))
  {
    if IsTokenStep(e) {
      TokenStepsSameTokens(sha, s, e);
    } else if IsRevokeStep(e) {
      RevokeStepsSameTokens(s, e);
    } else if IsValidateStep(e) {
      ValidateStepsSameTokens(s, e);
    }
  }

  /** Deletions of expired entries remove expired tokens only. */
  lemma DroppedTokensExpired(sha: string -> string, s: System, e: Step)
    requires SystemInv(sha, s) && DropsToken(e)
    ensures var s' := Next(sha, s, e);
            && s'.saved == s.saved && s'.revoked == s.revoked && s'.clock == s.clock
            && (forall k :: k in s'.store.tokens ==> k in s.store.tokens && s'.store.tokens[k] == s.store.tokens[k])
            && (forall k :: k in s.store.tokens && k !in s'.store.tokens ==> s.store.tokens[k].expiresAt < s.clock)
  {
    if e.c in s.threads {
      assert ThreadOk(sha, s, s.threads[e.c]);
    }
  }

  lemma SavedTokenIsTracked(sha: string -> string, s: System, e: Step)
    requires TokensTracked(s) && FreshValues(s, e) && e.DoSaveToken?
    ensures TokensTracked(Next(sha, s, e))
  {
    var s' := Next(sha, s, e);
    if s'.saved != s.saved {
      var t := s'.saved[e.access];
      assert s'.saved == s.saved[e.access := t] && s'.store.tokens == s.store.tokens[e.access := t];
      assert s'.revoked == s.revoked;
    } else {
      assert s'.store.tokens == s.store.tokens && s'.revoked == s.revoked;
    }
  }

  lemma RevokedTokenIsTracked(sha: string -> string, s: System, c: nat)
    requires TokensTracked(s)
    ensures TokensTracked(Next(sha, s, DoDeleteForRevoke(c)))
  {
    var s' := Next(sha, s, DoDeleteForRevoke(c));
    assert s'.saved == s.saved && s'.clock == s.clock;
    if s' != s && s.threads[c].tok in s.store.tokens {
      var tok := s.threads[c].tok;
      assert s'.store.tokens == s.store.tokens - {tok} && s'.revoked == s.revoked + {tok};
    }
  }

  lemma TokensStepKeeps(sha: string -> string, s: System, e: Step)
    requires SystemInv(sha, s) && FreshValues(s, e)
    ensures TokensTracked(Next(sha, s, e))
  {
    if e.DoSaveToken? {
      SavedTokenIsTracked(sha, s, e);
    } else if e.DoDeleteForRevoke? {
      RevokedTokenIsTracked(sha, s, e.c);
    } else if DropsToken(e) {
      DroppedTokensExpired(sha, s, e);
    } else {
      TokensUntouched(sha, s, e);
    }
  }

  predicate Moves(e: Step) {
    !e.Register? && !e.IssueCode?
  }

  lemma OnlyGrantsSave(sha: string -> string, s: System, e: Step)
    requires !e.DoSaveToken?
    ensures Next(sha, s, e).saved == s.saved
  {
  }

  lemma StepGrows(sha: string -> string, s: System, e: Step)
    requires FreshValues(s, e)
    ensures Grows(s, Next(sha, s, e))
  {
    var s' := Next(sha, s, e);
    if e.DoSaveToken? {
      CodesUntouched(sha, s, e);
    } else {
      OnlyGrantsSave(sha, s, e);
      if e.DoDeleteCode? {
        assert s'.answered == s.answered || s'.answered == s.answered + [s.threads[e.c].req.code];
      } else if !e.IssueCode? && !e.DoDropStaleCode? {
        CodesUntouched(sha, s, e);
      }
    }
  }

  /** At most the thread of c changes. */
  ghost predicate MovesOnly(s: System, s': System, c: nat) {
    s'.threads == s.threads || (c in s'.threads && s'.threads == s.threads[c := s'.threads[c]])
  }

  lemma TokenStepMovesOnly(sha: string -> string, s: System, e: Step)
    requires IsTokenStep(e)
    ensures MovesOnly(s, NextGrant(sha, s, e), e.c)
  {
  }

  lemma RevokeStepMovesOnly(s: System, e: Step)
    requires IsRevokeStep(e)
    ensures MovesOnly(s, NextRevoke(s, e), e.c)
  {
  }

  lemma ValidateStepMovesOnly(s: System, e: Step)
    requires IsValidateStep(e)
    ensures MovesOnly(s, NextValidate(s, e), e.c)
  {
  }

  lemma StepMovesOneThread(sha: string -> string, s: System, e: Step)
    ensures var s' := Next(sha, s, e);
            if Moves(e) then MovesOnly(s, s', e.c) else s'.threads == s.threads
  {
    if IsTokenStep(e) {
      TokenStepMovesOnly(sha, s, e);
    } else if IsRevokeStep(e) {
      RevokeStepMovesOnly(s, e);
    } else if IsValidateStep(e) {
      ValidateStepMovesOnly(s, e);
    }
  }

  lemma TokenThreadOk(sha: string -> string, s: System, e: Step)
    requires CodesTracked(s) && IsTokenStep(e) && (e.c in s.threads ==> ThreadOk(sha, s, s.threads[e.c]))
    ensures var s' := NextGrant(sha, s, e);
            s' != s && e.c in s'.threads ==> ThreadOk(sha, s', s'.threads[e.c])
  {
  }

  lemma RevokeThreadOk(sha: string -> string, s: System, e: Step)
    requires IsRevokeStep(e)
    ensures var s' := NextRevoke(s, e);
            s' != s && e.c in s'.threads ==> ThreadOk(sha, s', s'.threads[e.c])
  {
  }

  lemma ValidateThreadOk(sha: string -> string, s: System, e: Step)
    requires TokensTracked(s) && IsValidateStep(e) && (e.c in s.threads ==> ThreadOk(sha, s, s.threads[e.c]))
    ensures var s' := NextValidate(s, e);
            s' != s && e.c in s'.threads ==> ThreadOk(sha, s', s'.threads[e.c])
  {
  }

  lemma StepKeeps(sha: string -> string, s: System, e: Step)
    requires SystemInv(sha, s) && FreshValues(s, e)
    ensures SystemInv(sha, Next(sha, s, e))
  {
    var s' := Next(sha, s, e);
    CodesStepKeeps(sha, s, e);
    TokensStepKeeps(sha, s, e);
    StepGrows(sha, s, e);
    StepMovesOneThread(sha, s, e);
    if s'.threads != s.threads {
      if IsTokenStep(e) {
        TokenThreadOk(sha, s, e);
      } else if IsRevokeStep(e) {
        RevokeThreadOk(sha, s, e);
      } else {
        ValidateThreadOk(sha, s, e);
      }
      ThreadsKeep(sha, s, s', Some(e.c));
    } else {
      ThreadsKeep(sha, s, s', None);
    }
  }

  lemma {:induction false} EveryRunKeeps(sha: string -> string, es: seq<Event>)
    requires LegalRun(sha, es)
    ensures SystemInv(sha, Run(sha, es))
  {
    if es == [] {
    } else {
      var before, e := es[..|es| - 1], es[|es| - 1];
      EveryRunKeeps(sha, before);
      TickKeeps(sha, Run(sha, before), e.later);
      StepKeeps(sha, Tick(Run(sha, before), e.later), e.step);
    }
  }

  // ---- The results ----

  /** A successful response means: the code was issued to this very client and redirect URI, was read before it
      expired, and the verifier matches the challenge it was issued with, if there was one. */
  lemma GrantIsJustified(sha: string -> string, es: seq<Event>, c: nat)
    requires LegalRun(sha, es) && At(Run(sha, es), c).Some? && At(Run(sha, es), c).value.Granted?
    ensures var s := Run(sha, es);
            var Granted(r, ac, readAt, token) := s.threads[c];
            && r.code in s.issued && s.issued[r.code] == ac && r.code in s.answered
            && readAt <= ac.expiresAt
            && ac.clientId == r.clientId == token.clientId && ac.redirectUri == r.redirectUri && token.scope == ac.scope
            && (ac.challenge != "" ==>
                  r.verifier != "" && Ok(ac.challenge) == ComputeChallenge(sha, r.verifier, ac.challengeMethod))
  {
    EveryRunKeeps(sha, es);
    assert ThreadOk(sha, Run(sha, es), Run(sha, es).threads[c]);
  }

  /** The challenge of a stored code can always be computed: the method error of the token endpoint cannot occur. */
  lemma ChallengeIsComputable(sha: string -> string, es: seq<Event>, code: string, verifier: string)
    requires LegalRun(sha, es) && code in Run(sha, es).store.codes
    ensures var ac := Run(sha, es).store.codes[code];
            ac.challenge != "" ==> ComputeChallenge(sha, verifier, ac.challengeMethod).Ok?
  {
    EveryRunKeeps(sha, es);
  }

  /** Reading a code succeeds exactly when it was issued, has not been exchanged, and has not expired, whatever
      deletions of expired entries interleave. */
  lemma CodeReadRefinesHistory(sha: string -> string, es: seq<Event>, code: string, now: int)
    requires LegalRun(sha, es) && Run(sha, es).clock <= now
    ensures var s := Run(sha, es);
            ReadCode(s.store, code, now).Ok? <==>
            code in s.issued && code !in s.answered && now <= s.issued[code].expiresAt
  {
    EveryRunKeeps(sha, es);
  }

  /** The read of a validation succeeds exactly when some grant saved the token, no revocation removed it, and it has
      not expired. */
  lemma TokenReadRefinesHistory(sha: string -> string, es: seq<Event>, tok: string, now: int)
    requires LegalRun(sha, es) && Run(sha, es).clock <= now
    ensures var s := Run(sha, es);
            ReadToken(s.store, tok, now).Ok? <==>
            tok in s.saved && tok !in s.revoked && now <= s.saved[tok].expiresAt
  {
    EveryRunKeeps(sha, es);
  }

  lemma ReadForValidation(sha: string -> string, s: System, c: nat, tok: string)
    requires At(s, c) == Some(ValidateBegun(tok))
    ensures var s' := Next(sha, s, DoReadForValidate(c));
            && s'.clock == s.clock && c in s'.threads
            && match ReadToken(s.store, tok, s.clock)
               case Ok(info) => s'.threads[c] == ValidateFound(tok, info, s.clock)
               case Err(_) => s'.threads[c].ValidateStale? || s'.threads[c].Refused?
  {
  }

  lemma DecideValidation(sha: string -> string, s: System, c: nat)
    requires c in s.threads
    ensures var s' := Next(sha, s, DoDecide(c));
            && c in s'.threads
            && match s.threads[c]
               case ValidateFound(_, info, _) => s'.threads[c].Accepted? <==> s.clock <= info.expiresAt
               case t => s'.threads[c] == t
  {
  }

  lemma DeletingCode(sha: string -> string, s: System, c: nat)
    requires c in s.threads && s.threads[c].TokenSaved?
    ensures var s' := Next(sha, s, DoDeleteCode(c));
            var code := s.threads[c].req.code;
            && c in s'.threads && s'.saved == s.saved && s'.store.tokens == s.store.tokens
            && s'.threads[c] == (if code in s.store.codes
                                 then Granted(s.threads[c].req, s.threads[c].ac, s.threads[c].readAt,
                                              s.threads[c].token)
                                 else Refused(InvalidGrant))
  {
  }

  /** A request that saved a token and then finds the code gone was overtaken: the code was exchanged by another
      request, or expired meanwhile. It is refused, but its token stays stored. */
  lemma OvertakenRequestLeavesToken(sha: string -> string, es: seq<Event>, c: nat)
    requires LegalRun(sha, es) && c in Run(sha, es).threads && Run(sha, es).threads[c].TokenSaved?
    ensures var s := Run(sha, es);
            var s' := Next(sha, s, DoDeleteCode(c));
            var TokenSaved(r, ac, _, token) := s.threads[c];
            && c in s'.threads && token.accessToken in s'.saved && s'.store.tokens == s.store.tokens
            && (s'.threads[c] == Refused(InvalidGrant) <==> r.code !in s.store.codes)
            && (s'.threads[c] == Refused(InvalidGrant) ==> r.code in s.answered || ac.expiresAt < s.clock)
  {
    EveryRunKeeps(sha, es);
    assert ThreadOk(sha, Run(sha, es), Run(sha, es).threads[c]);
    DeletingCode(sha, Run(sha, es), c);
  }

  lemma ReadingCode(sha: string -> string, s: System, c: nat)
    requires c in s.threads && s.threads[c].ClientChecked?
    ensures var r := s.threads[c].req;
            Next(sha, s, DoReadCode(c)) == Put(s, c, match ReadCode(s.store, r.code, s.clock)
                                                     case Ok(ac) => CodeInHand(r, ac, s.clock)
                                                     case Err(error) => if error == CodeExpired then CodeStale(r)
                                                                        else Refused(error))
  {
  }

  lemma UndisturbedRead(sha: string -> string, s: System, c: nat)
    requires c in s.threads && s.threads[c].ClientChecked?
    ensures var r := s.threads[c].req;
            var read := Next(sha, Next(sha, s, DoReadCode(c)), DoDropStaleCode(c));
            var (store, got) := GetCodeAlone(s.store, r.code, s.clock, s.clock);
            && read.store == store && read.clock == s.clock && c in read.threads
            && read.threads[c] == if got.Ok? then CodeInHand(r, got.value, s.clock) else Refused(got.error)
  {
    ReadingCode(sha, s, c);
  }

  lemma SavingToken(sha: string -> string, s: System, c: nat, access: string, refresh: string)
    requires c in s.threads && s.threads[c].CodeInHand? && CheckCode(sha, s.threads[c].req, s.threads[c].ac) == Ok(())
    ensures var s' := Next(sha, s, DoSaveToken(c, access, refresh));
            var CodeInHand(r, ac, readAt) := s.threads[c];
            var t := NewToken(r, ac, access, refresh, s.clock);
            s' == Put(s.(store := PutToken(s.store, t), saved := s.saved[access := t]), c, TokenSaved(r, ac, readAt, t))
  {
  }

  /** With the code in hand: check, save, delete, with nothing in between. */
  lemma UndisturbedSave(sha: string -> string, s: System, c: nat, access: string, refresh: string)
    requires c in s.threads && s.threads[c].CodeInHand?
    ensures var CodeInHand(r, ac, _) := s.threads[c];
            var s' := Next(sha, Next(sha, s, DoSaveToken(c, access, refresh)), DoDeleteCode(c));
            var checked, t := CheckCode(sha, r, ac), NewToken(r, ac, access, refresh, s.clock);
            var (store, removed) := RemoveCode(PutToken(s.store, t), r.code);
            && c in s'.threads
            && if checked.Err? then s'.store == s.store && s'.threads[c] == Refused(checked.error)
               else s'.store == store && if removed.Err? then s'.threads[c] == Refused(removed.error)
                                         else s'.threads[c].Granted? && s'.threads[c].token == t
  {
    if CheckCode(sha, s.threads[c].req, s.threads[c].ac) == Ok(()) {
      SavingToken(sha, s, c, access, refresh);
      DeletingCode(sha, Next(sha, s, DoSaveToken(c, access, refresh)), c);
    }
  }

  /** From the read of the code on: read, drop if stale, save, delete, with nothing in between. */
  lemma UndisturbedExchange(sha: string -> string, s: System, c: nat, access: string, refresh: string)
    requires c in s.threads && s.threads[c].ClientChecked? && CheckClient(s.store, s.threads[c].req).Ok?
    ensures var read := Next(sha, Next(sha, s, DoReadCode(c)), DoDropStaleCode(c));
            var s' := Next(sha, Next(sha, read, DoSaveToken(c, access, refresh)), DoDeleteCode(c));
            var (store, out) := GrantAlone(sha, s.store, s.threads[c].req, access, refresh, s.clock, s.clock, s.clock);
            && s'.store == store && c in s'.threads
            && match out
               case Ok(t) => s'.threads[c].Granted? && s'.threads[c].token == t
               case Err(error) => s'.threads[c] == Refused(error)
  {
    UndisturbedRead(sha, s, c);
    var read := Next(sha, Next(sha, s, DoReadCode(c)), DoDropStaleCode(c));
    if read.threads[c].CodeInHand? {
      UndisturbedSave(sha, read, c, access, refresh);
    }
  }

  /** Taken one after the other, the steps of a token request do what the server object's Grant does. */
  lemma UndisturbedGrant(sha: string -> string, s: System, c: nat, r: TokenRequest, access: string, refresh: string)
    requires c !in s.threads
    ensures var checked := Next(sha, Next(sha, s, BeginToken(c, r)), DoCheckClient(c));
            var read := Next(sha, Next(sha, checked, DoReadCode(c)), DoDropStaleCode(c));
            var s' := Next(sha, Next(sha, read, DoSaveToken(c, access, refresh)), DoDeleteCode(c));
            var (store, out) := GrantAlone(sha, s.store, r, access, refresh, s.clock, s.clock, s.clock);
            && s'.store == store && c in s'.threads
            && match out
               case Ok(t) => s'.threads[c].Granted? && s'.threads[c].token == t
               case Err(error) => s'.threads[c] == Refused(error)
  {
    var checked := Next(sha, Next(sha, s, BeginToken(c, r)), DoCheckClient(c));
    assert checked.store == s.store && checked.clock == s.clock;
    if CheckClient(s.store, r).Ok? {
      assert checked.threads[c] == ClientChecked(r);
      UndisturbedExchange(sha, checked, c, access, refresh);
    } else {
      assert checked.threads[c] == Refused(CheckClient(s.store, r).error);
    }
  }

  // ---- More than one token may be stored for a code ----

  /** When two requests have read a code, both can save a token before either deletes the code: one is answered, the
      other refused, and both tokens are stored and valid for the full lifetime. Only the answer is single. */
  lemma TwoTokensForOneCode(sha: string -> string, s: System, c: nat, d: nat, a1: string, a2: string)
    requires c != d && a1 != a2 && c in s.threads && d in s.threads
    requires s.threads[c].CodeInHand? && s.threads[d].CodeInHand? && s.threads[c].req == s.threads[d].req
    requires s.threads[c].ac == s.threads[d].ac && CheckCode(sha, s.threads[c].req, s.threads[c].ac) == Ok(())
    requires s.threads[c].req.code in s.store.codes
    ensures var saved := Next(sha, Next(sha, s, DoSaveToken(c, a1, "")), DoSaveToken(d, a2, ""));
            var s' := Next(sha, Next(sha, saved, DoDeleteCode(c)), DoDeleteCode(d));
            && c in s'.threads && d in s'.threads && s'.threads[c].Granted? && s'.threads[d] == Refused(InvalidGrant)
            && ReadToken(s'.store, a1, s.clock + TOKEN_LIFETIME).Ok?
            && ReadToken(s'.store, a2, s.clock + TOKEN_LIFETIME).Ok?
            && s'.answered == s.answered + [s.threads[c].req.code]
  {
    SavingToken(sha, s, c, a1, "");
    var s1 := Next(sha, s, DoSaveToken(c, a1, ""));
    SavingToken(sha, s1, d, a2, "");
    var s2 := Next(sha, s1, DoSaveToken(d, a2, ""));
    DeletingCode(sha, s2, c);
    var s3 := Next(sha, s2, DoDeleteCode(c));
    assert s3.store.codes == s2.store.codes - {s.threads[c].req.code} && s3.threads[d] == s2.threads[d];
    DeletingCode(sha, s3, d);
  }

  const SomeClient := Client("client", "secret", ["/cb"])

  const SomeAuthorize := AuthorizeRequest("client", "/cb", "code", "", "", "")

  const SomeRequest := TokenRequest("client", "secret", "code", "/cb", "")

  const SomeCode := AuthCode("code", "client", "/cb", "", "", "", CODE_LIFETIME)

  function PlainParse(u: string): Option<Url> {
    Some(Url("", "", u))
  }

  function StageStep(i: nat): Step {
    match i
    case 0 => Register(SomeClient)
    case 1 => IssueCode(PlainParse, SomeAuthorize, "code")
    case 2 => BeginToken(0, SomeRequest)
    case 3 => DoCheckClient(0)
    case 4 => DoReadCode(0)
    case 5 => BeginToken(1, SomeRequest)
    case 6 => DoCheckClient(1)
    case _ => DoReadCode(1)
  }

  function StageThread(i: nat): map<nat, Thread> {
    var held := CodeInHand(SomeRequest, SomeCode, 0);
    match i
    case 3 => map[0 := TokenBegun(SomeRequest)]
    case 4 => map[0 := ClientChecked(SomeRequest)]
    case 5 => map[0 := held]
    case 6 => map[0 := held, 1 := TokenBegun(SomeRequest)]
    case 7 => map[0 := held, 1 := ClientChecked(SomeRequest)]
    case 8 => map[0 := held, 1 := held]
    case _ => map[]
  }

  /** The state after the first i steps. */
  ghost predicate Stage(s: System, i: nat) {
    && s.clock == 0 && s.saved == map[]
    && s.store.clients == (if i > 0 then map["client" := SomeClient] else map[])
    && s.store.codes == s.issued == (if i > 1 then map["code" := SomeCode] else map[])
    && s.threads == StageThread(i)
  }

  lemma StageStepAdvances(sha: string -> string, s: System, i: nat)
    requires Stage(s, i) && i < 8
    ensures FreshValues(s, StageStep(i)) && Stage(Next(sha, Tick(s, 0), StageStep(i)), i + 1)
  {
    if i == 1 {
      assert "/cb" in SomeClient.redirectUris && Allows(PlainParse, Url("", "", "/cb"), "/cb");
    }
  }

  lemma RunSnoc(sha: string -> string, es: seq<Event>, e: Event)
    ensures Run(sha, es + [e]) == Next(sha, Tick(Run(sha, es), e.later), e.step)
    ensures LegalRun(sha, es + [e]) <==> LegalRun(sha, es) && FreshValues(Run(sha, es), e.step)
  {
    assert (es + [e])[..|es|] == es;
  }

  /** Such a state is reachable. */
  lemma TwoRequestsMayHoldOneCode(sha: string -> string) returns (es: seq<Event>)
    ensures LegalRun(sha, es)
    ensures var s := Run(sha, es);
            && 0 in s.threads && 1 in s.threads && s.threads[0].CodeInHand? && s.threads[1] == s.threads[0]
            && CheckCode(sha, s.threads[0].req, s.threads[0].ac) == Ok(()) && s.threads[0].req.code in s.store.codes
  {
    es := [];
    for i := 0 to 8
      invariant LegalRun(sha, es) && Stage(Run(sha, es), i)
    {
      RunSnoc(sha, es, Event(0, StageStep(i)));
      StageStepAdvances(sha, Run(sha, es), i);
      es := es + [Event(0, StageStep(i))];
    }
  }
}
