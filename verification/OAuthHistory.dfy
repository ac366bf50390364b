/** What whole runs of interleaved OAuth requests promise (internal/auth/oauth.go): single answers, justified grants,
    validation with anything in between, and exactly when a code can leave more than one token. */
module OAuthHistory {
  import opened Options
  import opened OAuthStore
  import opened OAuthGrant

  // ---- One answer for a code ----

  /** No two granted requests have one code, and a granted request's code is recorded as answered. */
  ghost predicate SingleGrants(s: System) {
    && (forall c :: c in s.threads && s.threads[c].Granted? ==> s.threads[c].req.code in s.answered)
    && (forall c, d :: c in s.threads && d in s.threads && s.threads[c].Granted? && s.threads[d].Granted? ==>
          s.threads[c].req.code == s.threads[d].req.code ==> c == d)
  }

  /** Whether a token request has passed the client check. */
  predicate PastCheck(t: Thread) {
    t.ClientChecked? || t.CodeStale? || t.CodeInHand? || t.TokenSaved? || t.Granted?
  }

  lemma RevocationMakesNoTokenRequest(s: System, e: Step)
    requires IsRevokeStep(e)
    ensures At(NextRevoke(s, e), e.c) == At(s, e.c) || !PastCheck(NextRevoke(s, e).threads[e.c])
  {
  }

  lemma ValidationMakesNoTokenRequest(s: System, e: Step)
    requires IsValidateStep(e)
    ensures At(NextValidate(s, e), e.c) == At(s, e.c) || !PastCheck(NextValidate(s, e).threads[e.c])
  {
  }

  lemma OtherStepsLeaveTokenRequests(sha: string -> string, s: System, e: Step, c: nat)
    requires !IsTokenStep(e)
    ensures var s' := Next(sha, s, e);
            c in s'.threads && PastCheck(s'.threads[c]) ==> At(s, c) == Some(s'.threads[c])
  {
    if IsRevokeStep(e) {
      RevokeStepMovesOnly(s, e);
      RevocationMakesNoTokenRequest(s, e);
    } else if IsValidateStep(e) {
      ValidateStepMovesOnly(s, e);
      ValidationMakesNoTokenRequest(s, e);
    }
  }

  lemma OnlyDeletionGrants(sha: string -> string, s: System, e: Step)
    requires IsTokenStep(e) && !e.DoDeleteCode?
    ensures At(NextGrant(sha, s, e), e.c) == At(s, e.c) || !NextGrant(sha, s, e).threads[e.c].Granted?
  {
  }

  lemma DeletionGrants(sha: string -> string, s: System, c: nat)
    requires CodesTracked(s)
    ensures var s' := NextGrant(sha, s, DoDeleteCode(c));
            At(s', c) == At(s, c) || !s'.threads[c].Granted? ||
            (s'.answered == s.answered + [s'.threads[c].req.code] && s'.threads[c].req.code !in s.answered)
  {
  }

  lemma GrantedStep(sha: string -> string, s: System, e: Step, c: nat)
    requires CodesTracked(s)
    ensures var s' := Next(sha, s, e);
            c in s'.threads && s'.threads[c].Granted? ==>
              || At(s, c) == Some(s'.threads[c])
              || (e == DoDeleteCode(c) && s'.answered == s.answered + [s'.threads[c].req.code]
                  && s'.threads[c].req.code !in s.answered)
  {
    if !IsTokenStep(e) {
      OtherStepsLeaveTokenRequests(sha, s, e, c);
    } else {
      TokenStepMovesOnly(sha, s, e);
      if e.DoDeleteCode? {
        DeletionGrants(sha, s, e.c);
      } else {
        OnlyDeletionGrants(sha, s, e);
      }
    }
  }

  lemma StepKeepsSingleGrants(sha: string -> string, s: System, e: Step)
    requires SystemInv(sha, s) && SingleGrants(s) && FreshValues(s, e)
    ensures SingleGrants(Next(sha, s, e))
  {
    var s' := Next(sha, s, e);
    StepGrows(sha, s, e);
    forall c | c in s'.threads && s'.threads[c].Granted? ensures s'.threads[c].req.code in s'.answered {
      GrantedStep(sha, s, e, c);
    }
    forall c, d | c in s'.threads && d in s'.threads && s'.threads[c].Granted? && s'.threads[d].Granted?
                  && s'.threads[c].req.code == s'.threads[d].req.code
      ensures c == d
    {
      GrantedStep(sha, s, e, c);
      GrantedStep(sha, s, e, d);
    }
  }

  lemma {:induction false} EveryRunGrantsSingly(sha: string -> string, es: seq<Event>)
    requires LegalRun(sha, es)
    ensures SingleGrants(Run(sha, es))
  {
    if es == [] {
    } else {
      var before, e := es[..|es| - 1], es[|es| - 1];
      EveryRunGrantsSingly(sha, before);
      EveryRunKeeps(sha, before);
      TickKeeps(sha, Run(sha, before), e.later);
      StepKeepsSingleGrants(sha, Tick(Run(sha, before), e.later), e.step);
    }
  }

  /** Over every interleaving at most one token request for a code gets a successful response. */
  lemma CodeGrantedAtMostOnce(sha: string -> string, es: seq<Event>, c: nat, d: nat)
    requires LegalRun(sha, es)
    requires var threads := Run(sha, es).threads;
             && c in threads && d in threads && threads[c].Granted? && threads[d].Granted?
             && threads[c].req.code == threads[d].req.code
    ensures c == d
  {
    EveryRunGrantsSingly(sha, es);
  }

  // ---- Granted requests were authenticated ----

  ghost predicate Authenticated(s: System) {
    forall c :: c in s.threads && PastCheck(s.threads[c]) ==> CheckClient(s.store, s.threads[c].req).Ok?
  }

  lemma TokenStepsLeaveClients(sha: string -> string, s: System, e: Step)
    requires IsTokenStep(e)
    ensures NextGrant(sha, s, e).store.clients == s.store.clients
  {
  }

  lemma OtherStepsLeaveClients(s: System, e: Step)
    ensures IsRevokeStep(e) ==> NextRevoke(s, e).store.clients == s.store.clients
    ensures IsValidateStep(e) ==> NextValidate(s, e).store.clients == s.store.clients
  {
  }

  lemma ClientsStay(sha: string -> string, s: System, e: Step)
    ensures var clients := Next(sha, s, e).store.clients;
            forall id :: id in s.store.clients ==> id in clients && clients[id] == s.store.clients[id]
  {
    if IsTokenStep(e) {
      TokenStepsLeaveClients(sha, s, e);
    } else {
      OtherStepsLeaveClients(s, e);
    }
  }

  lemma CheckedTokenStep(sha: string -> string, s: System, e: Step)
    requires IsTokenStep(e)
    ensures var s' := NextGrant(sha, s, e);
            e.c in s'.threads && PastCheck(s'.threads[e.c]) ==>
              && e.c in s.threads
              && if PastCheck(s.threads[e.c]) then s'.threads[e.c].req == s.threads[e.c].req
                 else CheckClient(s.store, s'.threads[e.c].req).Ok?
  {
  }

  lemma CheckedStep(sha: string -> string, s: System, e: Step, c: nat)
    ensures var s' := Next(sha, s, e);
            c in s'.threads && PastCheck(s'.threads[c]) ==>
              && c in s.threads
              && if PastCheck(s.threads[c]) then s'.threads[c].req == s.threads[c].req
                 else CheckClient(s.store, s'.threads[c].req).Ok?
  {
    if IsTokenStep(e) {
      TokenStepMovesOnly(sha, s, e);
      CheckedTokenStep(sha, s, e);
    } else {
      OtherStepsLeaveTokenRequests(sha, s, e, c);
    }
  }

  lemma CheckStays(a: Store, b: Store, r: TokenRequest)
    requires forall id :: id in a.clients ==> id in b.clients && b.clients[id] == a.clients[id]
    ensures CheckClient(a, r).Ok? ==> CheckClient(b, r) == CheckClient(a, r)
  {
  }

  lemma {:induction false} EveryRunAuthenticates(sha: string -> string, es: seq<Event>)
    ensures Authenticated(Run(sha, es))
  {
    if es == [] {
    } else {
      var before, e := es[..|es| - 1], es[|es| - 1];
      EveryRunAuthenticates(sha, before);
      var s := Tick(Run(sha, before), e.later);
      var s' := Next(sha, s, e.step);
      ClientsStay(sha, s, e.step);
      forall c | c in s'.threads && PastCheck(s'.threads[c]) ensures CheckClient(s'.store, s'.threads[c].req).Ok? {
        CheckedStep(sha, s, e.step, c);
        CheckStays(s.store, s'.store, s'.threads[c].req);
      }
    }
  }

  /** The verifier of a request meets the challenge its code was issued with, if there was one. */
  predicate MeetsChallenge(sha: string -> string, r: TokenRequest, ac: AuthCode) {
    ac.challenge != "" ==>
      && r.verifier != ""
      && ((ac.challengeMethod == "S256" && sha(r.verifier) == ac.challenge)
          || (ac.challengeMethod == "plain" && r.verifier == ac.challenge))
  }

  /** A successful response was given to a request that named a registered client and its secret; its code was issued
      to this client and redirect URI, was read unexpired, and its challenge, if it has one, is the verifier or the
      hash of the verifier, as its method says. */
  lemma GrantedRequestWasEntitled(sha: string -> string, es: seq<Event>, c: nat)
    requires LegalRun(sha, es) && c in Run(sha, es).threads && Run(sha, es).threads[c].Granted?
    ensures var s := Run(sha, es);
            var Granted(r, ac, readAt, token) := s.threads[c];
            && r.clientId in s.store.clients && s.store.clients[r.clientId].secret == r.secret
            && r.code in s.issued && s.issued[r.code] == ac && readAt <= ac.expiresAt
            && ac.clientId == r.clientId == token.clientId && ac.redirectUri == r.redirectUri
            && token.scope == ac.scope
            && (ac.challenge != "" ==> ac.challengeMethod == "S256" || ac.challengeMethod == "plain")
            && (ac.challenge != "" && ac.challengeMethod == "S256" ==> sha(r.verifier) == ac.challenge)
            && (ac.challenge != "" && ac.challengeMethod == "plain" ==> r.verifier == ac.challenge)
            && MeetsChallenge(sha, r, ac)
  {
    EveryRunAuthenticates(sha, es);
    GrantIsJustified(sha, es, c);
  }

  // ---- Validation with anything in between ----

  /** The steps of all requests but c, registrations and code issues included. */
  ghost predicate Others(es: seq<Event>, c: nat) {
    forall i :: 0 <= i < |es| ==> Moves(es[i].step) ==> es[i].step.c != c
  }

  function RunFrom(sha: string -> string, s: System, es: seq<Event>): System {
    if es == [] then s
    else Next(sha, Tick(RunFrom(sha, s, es[..|es| - 1]), es[|es| - 1].later), es[|es| - 1].step)
  }

  lemma ClockStays(sha: string -> string, s: System, e: Step)
    ensures Next(sha, s, e).clock == s.clock
  {
  }

  lemma {:induction false} OthersLeaveThread(sha: string -> string, s: System, es: seq<Event>, c: nat)
    requires Others(es, c)
    ensures At(RunFrom(sha, s, es), c) == At(s, c) && RunFrom(sha, s, es).clock >= s.clock
  {
    if es == [] {
    } else {
      var before, e := es[..|es| - 1], es[|es| - 1];
      OthersLeaveThread(sha, s, before, c);
      var now := Tick(RunFrom(sha, s, before), e.later);
      StepMovesOneThread(sha, now, e.step);
      ClockStays(sha, now, e.step);
      assert es[|es| - 1] == e;
    }
  }

  /** Validation over every interleaving, whatever other requests do between its read and its decision, revocations and
      expiry deletions included: it accepts exactly when, at the read, some grant had saved the token, no revocation
      had removed it and it had not expired, and it has still not expired at the decision. */
  lemma ValidationRefinesHistory(sha: string -> string, es: seq<Event>, c: nat, tok: string, mid: seq<Event>, wait: nat)
    requires LegalRun(sha, es) && At(Run(sha, es), c) == Some(ValidateBegun(tok)) && Others(mid, c)
    ensures var s := Run(sha, es);
            var decided := Tick(RunFrom(sha, Next(sha, s, DoReadForValidate(c)), mid), wait);
            var s' := Next(sha, decided, DoDecide(c));
            && c in s'.threads
            && (s'.threads[c].Accepted? <==>
                && tok in s.saved && tok !in s.revoked
                && s.clock <= s.saved[tok].expiresAt && decided.clock <= s.saved[tok].expiresAt)
  {
    var s := Run(sha, es);
    var read := Next(sha, s, DoReadForValidate(c));
    TokenReadRefinesHistory(sha, es, tok, s.clock);
    EveryRunKeeps(sha, es);
    ReadForValidation(sha, s, c, tok);
    OthersLeaveThread(sha, read, mid, c);
    DecideValidation(sha, Tick(RunFrom(sha, read, mid), wait), c);
  }

  // ---- Exactly when one code leaves one token ----

  /** A request that will save a token for code k, or has saved one and not deleted the code yet. */
  predicate HoldsCode(sha: string -> string, t: Thread, k: string) {
    || (t.CodeInHand? && t.req.code == k && CheckCode(sha, t.req, t.ac) == Ok(()))
    || (t.TokenSaved? && t.req.code == k)
  }

  ghost predicate Holder(sha: string -> string, s: System, c: nat, k: string) {
    c in s.threads && HoldsCode(sha, s.threads[c], k)
  }

  ghost predicate Saver(s: System, c: nat, k: string) {
    c in s.threads && s.threads[c].TokenSaved? && s.threads[c].req.code == k
  }

  /** Whether a step saves a token for code k. */
  predicate Saves(sha: string -> string, s: System, e: Step, k: string) {
    && e.DoSaveToken? && e.c in s.threads && s.threads[e.c].CodeInHand?
    && HoldsCode(sha, s.threads[e.c], k)
  }

  /** How many tokens were saved for code k during a run. */
  function SavedFor(sha: string -> string, es: seq<Event>, k: string): nat {
    if es == [] then 0
    else
      var before, e := es[..|es| - 1], es[|es| - 1];
      SavedFor(sha, before, k) + if Saves(sha, Tick(Run(sha, before), e.later), e.step, k) then 1 else 0
  }

  /** Whether a request reads code k successfully, and its checks will pass. */
  predicate Takes(sha: string -> string, s: System, e: Step, k: string) {
    && e.DoReadCode? && e.c in s.threads && s.threads[e.c].ClientChecked? && s.threads[e.c].req.code == k
    && ReadCode(s.store, k, s.clock).Ok? && CheckCode(sha, s.threads[e.c].req, s.store.codes[k]) == Ok(())
  }

  /** No request takes the code while another one is between its read and its delete of it. */
  ghost predicate Serial(sha: string -> string, es: seq<Event>, k: string) {
    es == [] ||
    (var before, e := es[..|es| - 1], es[|es| - 1];
     var s := Tick(Run(sha, before), e.later);
     && Serial(sha, before, k)
     && (Takes(sha, s, e.step, k) ==> forall d :: !Holder(sha, s, d, k)))
  }

  /** Where holders and savers of a code come from. */
  lemma TokenHolderStep(sha: string -> string, s: System, e: Step, k: string)
    requires IsTokenStep(e)
    ensures var s' := NextGrant(sha, s, e);
            && (Holder(sha, s', e.c, k) ==> Holder(sha, s, e.c, k) || Takes(sha, s, e, k))
            && (Saver(s', e.c, k) <==> if Saves(sha, s, e, k) then true else Saver(s, e.c, k) && !e.DoDeleteCode?)
            && (Takes(sha, s, e, k) ==> !Holder(sha, s, e.c, k))
            && (Saves(sha, s, e, k) ==> Holder(sha, s, e.c, k) && !Saver(s, e.c, k))
  {
  }

  lemma HolderStep(sha: string -> string, s: System, e: Step, k: string, c: nat)
    ensures var s' := Next(sha, s, e);
            && (Holder(sha, s', c, k) ==> Holder(sha, s, c, k) || (Takes(sha, s, e, k) && e.c == c))
            && (Saver(s', c, k) ==> Saver(s, c, k) || (Saves(sha, s, e, k) && e.c == c))
            && (Saver(s, c, k) && e != DoDeleteCode(c) ==> Saver(s', c, k))
            && (Saves(sha, s, e, k) && e.c == c ==> Saver(s', c, k) && Holder(sha, s, c, k) && !Saver(s, c, k))
  {
    if IsTokenStep(e) {
      TokenStepMovesOnly(sha, s, e);
      TokenHolderStep(sha, s, e, k);
    } else {
      OtherStepsLeaveTokenRequests(sha, s, e, c);
      StepMovesOneThread(sha, s, e);
    }
  }

  /** One holder at a time; once a token is saved, nobody else will save one, and the code can no longer be read unless
      its saver is about to delete it. */
  ghost predicate OneSave(sha: string -> string, s: System, k: string, saves: nat) {
    && (forall c, d :: Holder(sha, s, c, k) && Holder(sha, s, d, k) ==> c == d)
    && (saves == 0 || (saves == 1 && k in s.issued && (forall c :: Holder(sha, s, c, k) ==> Saver(s, c, k))))
    && (saves == 1 && k in s.store.codes ==> exists c :: Saver(s, c, k))
  }

  lemma CodeStoreStep(sha: string -> string, s: System, e: Step, k: string)
    requires FreshValues(s, e) && k in s.issued
    ensures k in Next(sha, s, e).store.codes ==> k in s.store.codes
    ensures e.DoDeleteCode? && Saver(s, e.c, k) ==> k !in Next(sha, s, e).store.codes
  {
    if !e.IssueCode? && !e.DoDropStaleCode? && !e.DoDeleteCode? {
      CodesUntouched(sha, s, e);
    }
  }

  lemma HoldersStayOne(sha: string -> string, s: System, e: Step, k: string)
    requires forall c, d :: Holder(sha, s, c, k) && Holder(sha, s, d, k) ==> c == d
    requires Takes(sha, s, e, k) ==> forall d :: !Holder(sha, s, d, k)
    ensures var s' := Next(sha, s, e); forall c, d :: Holder(sha, s', c, k) && Holder(sha, s', d, k) ==> c == d
  {
    var s' := Next(sha, s, e);
    forall c, d | Holder(sha, s', c, k) && Holder(sha, s', d, k) ensures c == d {
      HolderStep(sha, s, e, k, c);
      HolderStep(sha, s, e, k, d);
    }
  }

  lemma SaveStep(sha: string -> string, s: System, e: Step, k: string)
    requires SystemInv(sha, s) && FreshValues(s, e) && OneSave(sha, s, k, 0) && Saves(sha, s, e, k)
    ensures OneSave(sha, Next(sha, s, e), k, 1)
  {
    var s' := Next(sha, s, e);
    HoldersStayOne(sha, s, e, k);
    assert ThreadOk(sha, s, s.threads[e.c]);
    StepGrows(sha, s, e);
    HolderStep(sha, s, e, k, e.c);
    assert Saver(s', e.c, k);
    forall c | Holder(sha, s', c, k) ensures Saver(s', c, k) {
      assert Holder(sha, s', e.c, k);
    }
  }

  /** Once a token is saved, whoever still finds the code finds its saver about to delete it. */
  lemma NobodyTakesAfterSave(sha: string -> string, s: System, e: Step, k: string)
    requires OneSave(sha, s, k, 1)
    requires Takes(sha, s, e, k) ==> forall d :: !Holder(sha, s, d, k)
    ensures !Takes(sha, s, e, k)
  {
    if k in s.store.codes {
      var c :| Saver(s, c, k);
      assert Holder(sha, s, c, k);
    }
  }

  lemma StoredCodeKeepsSaver(sha: string -> string, s: System, e: Step, k: string)
    requires FreshValues(s, e) && OneSave(sha, s, k, 1)
    ensures k in Next(sha, s, e).store.codes ==> exists c :: Saver(Next(sha, s, e), c, k)
  {
    CodeStoreStep(sha, s, e, k);
    if k in s.store.codes {
      var c :| Saver(s, c, k);
      HolderStep(sha, s, e, k, c);
    }
  }

  lemma HoldersStaySavers(sha: string -> string, s: System, e: Step, k: string, c: nat)
    requires OneSave(sha, s, k, 1) && !Takes(sha, s, e, k)
    ensures Holder(sha, Next(sha, s, e), c, k) ==> Saver(Next(sha, s, e), c, k)
  {
    HolderStep(sha, s, e, k, c);
    if Saver(s, c, k) && e == DoDeleteCode(c) {
      DeletingCode(sha, s, c);
    }
  }

  lemma SavedStep(sha: string -> string, s: System, e: Step, k: string)
    requires FreshValues(s, e) && OneSave(sha, s, k, 1)
    requires Takes(sha, s, e, k) ==> forall d :: !Holder(sha, s, d, k)
    ensures !Saves(sha, s, e, k) && OneSave(sha, Next(sha, s, e), k, 1)
  {
    NobodyTakesAfterSave(sha, s, e, k);
    HoldersStayOne(sha, s, e, k);
    StoredCodeKeepsSaver(sha, s, e, k);
    StepGrows(sha, s, e);
    forall c ensures Holder(sha, Next(sha, s, e), c, k) ==> Saver(Next(sha, s, e), c, k) {
      HoldersStaySavers(sha, s, e, k, c);
    }
    if Saves(sha, s, e, k) {
      HolderStep(sha, s, e, k, e.c);
    }
  }

  lemma {:induction false} SerialRunSavesOnce(sha: string -> string, es: seq<Event>, k: string)
    requires LegalRun(sha, es) && Serial(sha, es, k)
    ensures OneSave(sha, Run(sha, es), k, SavedFor(sha, es, k))
  {
    if es == [] {
    } else {
      var before, e := es[..|es| - 1], es[|es| - 1];
      var past := Run(sha, before);
      var s := Tick(past, e.later);
      SerialRunSavesOnce(sha, before, k);
      EveryRunKeeps(sha, before);
      TickKeeps(sha, past, e.later);
      TickKeepsOneSave(sha, past, e.later, k, SavedFor(sha, before, k));
      if SavedFor(sha, before, k) == 1 {
        SavedStep(sha, s, e.step, k);
      } else if Saves(sha, s, e.step, k) {
        SaveStep(sha, s, e.step, k);
      } else {
        HoldersStayOne(sha, s, e.step, k);
      }
    }
  }

  lemma TickKeepsOneSave(sha: string -> string, s: System, later: nat, k: string, saves: nat)
    requires OneSave(sha, s, k, saves)
    ensures OneSave(sha, Tick(s, later), k, saves)
  {
    var s' := Tick(s, later);
    assert forall c :: Holder(sha, s', c, k) <==> Holder(sha, s, c, k);
    assert forall c :: Saver(s', c, k) <==> Saver(s, c, k);
  }

  /** If token requests are served one at a time for each code, a code leaves at most one token, answered or not. */
  lemma OneTokenWhenSerial(sha: string -> string, es: seq<Event>, k: string)
    requires LegalRun(sha, es) && Serial(sha, es, k)
    ensures SavedFor(sha, es, k) <= 1
  {
    SerialRunSavesOnce(sha, es, k);
  }

  // ---- Without serving one at a time, a code can leave two ----

  /** The requests that have saved a token for code k and not deleted the code yet. */
  ghost function Savers(s: System, k: string): set<nat> {
    set c | c in s.threads && Saver(s, c, k)
  }

  lemma {:induction false} SubsetIsNotLarger(a: set<nat>, b: set<nat>)
    requires a <= b
    ensures |a| <= |b|
  {
    if a == {} {
    } else {
      var c :| c in a;
      SubsetIsNotLarger(a - {c}, b - {c});
    }
  }

  lemma SaversStep(sha: string -> string, s: System, e: Step, k: string)
    ensures |Savers(Next(sha, s, e), k)| <= |Savers(s, k)| + if Saves(sha, s, e, k) then 1 else 0
  {
    var s' := Next(sha, s, e);
    var more := Savers(s, k) + if Saves(sha, s, e, k) then {e.c} else {};
    forall c | c in Savers(s', k) ensures c in more {
      HolderStep(sha, s, e, k, c);
    }
    SubsetIsNotLarger(Savers(s', k), more);
  }

  lemma {:induction false} SaversAreCounted(sha: string -> string, es: seq<Event>, k: string)
    ensures |Savers(Run(sha, es), k)| <= SavedFor(sha, es, k)
  {
    if es == [] {
    } else {
      var before, e := es[..|es| - 1], es[|es| - 1];
      var s := Tick(Run(sha, before), e.later);
      SaversAreCounted(sha, before, k);
      assert Savers(s, k) == Savers(Run(sha, before), k);
      SaversStep(sha, s, e.step, k);
    }
  }

  /** The run up to event n, in which requests c and d then save their tokens, if they have codes in hand. */
  function Rushed(es: seq<Event>, n: nat, c: nat, d: nat, a1: string, a2: string): seq<Event>
    requires n <= |es|
  {
    es[..n] + [Event(0, DoSaveToken(c, a1, ""))] + [Event(0, DoSaveToken(d, a2, ""))]
  }

  lemma HolderSaves(sha: string -> string, s: System, c: nat, k: string, access: string)
    requires Holder(sha, s, c, k)
    ensures Saver(Next(sha, s, DoSaveToken(c, access, "")), c, k)
  {
    HolderStep(sha, s, DoSaveToken(c, access, ""), k, c);
  }

  lemma SavingLeavesOthers(sha: string -> string, s: System, c: nat, d: nat, k: string, access: string)
    requires c != d
    ensures var s' := Next(sha, s, DoSaveToken(c, access, ""));
            (Holder(sha, s', d, k) <==> Holder(sha, s, d, k)) && (Saver(s', d, k) <==> Saver(s, d, k))
  {
    StepMovesOneThread(sha, s, DoSaveToken(c, access, ""));
  }

  /** From any reachable state in which two requests hold a code, both can leave a token. */
  lemma TwoHoldersCanSaveTwice(sha: string -> string, es: seq<Event>, n: nat, c: nat, d: nat, k: string, a1: string,
                               a2: string)
    requires n <= |es| && c != d
    requires Holder(sha, Run(sha, es[..n]), c, k) && Holder(sha, Run(sha, es[..n]), d, k)
    ensures SavedFor(sha, Rushed(es, n, c, d, a1, a2), k) >= 2
  {
    var s := Run(sha, es[..n]);
    var e1, e2 := Event(0, DoSaveToken(c, a1, "")), Event(0, DoSaveToken(d, a2, ""));
    RunSnoc(sha, es[..n], e1);
    RunSnoc(sha, es[..n] + [e1], e2);
    assert Tick(s, 0) == s;
    HolderSaves(sha, s, c, k, a1);
    SavingLeavesOthers(sha, s, c, d, k, a1);
    var s1 := Run(sha, es[..n] + [e1]);
    assert Tick(s1, 0) == s1;
    HolderSaves(sha, s1, d, k, a2);
    SavingLeavesOthers(sha, s1, d, c, k, a2);
    var s2 := Run(sha, Rushed(es, n, c, d, a1, a2));
    assert {c, d} <= Savers(s2, k);
    SubsetIsNotLarger({c, d}, Savers(s2, k));
    SaversAreCounted(sha, Rushed(es, n, c, d, a1, a2), k);
  }

  lemma TakerHolds(sha: string -> string, s: System, e: Step, k: string, d: nat)
    requires Takes(sha, s, e, k) && Holder(sha, s, d, k)
    ensures e.c != d && Holder(sha, Next(sha, s, e), e.c, k) && Holder(sha, Next(sha, s, e), d, k)
  {
    ReadingCode(sha, s, e.c);
  }

  /** A run that is not serial has a moment at which two requests hold the code. */
  lemma {:induction false} OverlapMakesTwoHolders(sha: string -> string, es: seq<Event>, k: string)
    returns (n: nat, c: nat, d: nat)
    requires !Serial(sha, es, k)
    ensures n <= |es| && c != d && Holder(sha, Run(sha, es[..n]), c, k) && Holder(sha, Run(sha, es[..n]), d, k)
  {
    var before, e := es[..|es| - 1], es[|es| - 1];
    if !Serial(sha, before, k) {
      n, c, d := OverlapMakesTwoHolders(sha, before, k);
      assert before[..n] == es[..n];
    } else {
      var s := Tick(Run(sha, before), e.later);
      n, c, d :| n == |es| && c == e.step.c && Holder(sha, s, d, k);
      TakerHolds(sha, s, e.step, k, d);
      assert es[..n] == es;
    }
  }

  lemma {:induction false} PrefixIsSerial(sha: string -> string, es: seq<Event>, k: string, n: nat)
    requires n <= |es|
    ensures Serial(sha, es, k) ==> Serial(sha, es[..n], k)
    ensures LegalRun(sha, es) ==>
              LegalRun(sha, es[..n]) && forall a :: a in Run(sha, es[..n]).saved ==> a in Run(sha, es).saved
  {
    if n < |es| {
      var before, e := es[..|es| - 1], es[|es| - 1];
      PrefixIsSerial(sha, before, k, n);
      assert before[..n] == es[..n];
      if LegalRun(sha, es) {
        StepGrows(sha, Tick(Run(sha, before), e.later), e.step);
      }
    } else {
      assert es[..n] == es;
    }
  }

  lemma SaveIsLegal(sha: string -> string, es: seq<Event>, k: string, c: nat, access: string)
    requires LegalRun(sha, es) && access !in Run(sha, es).saved
    ensures var es' := es + [Event(0, DoSaveToken(c, access, ""))];
            && LegalRun(sha, es') && (Serial(sha, es, k) ==> Serial(sha, es', k))
            && forall a :: a in Run(sha, es').saved ==> a in Run(sha, es).saved || a == access
  {
    var e := Event(0, DoSaveToken(c, access, ""));
    RunSnoc(sha, es, e);
    assert (es + [e])[..|es|] == es;
    SavedAfterSave(sha, Tick(Run(sha, es), 0), c, access);
  }

  lemma RushedIsLegal(sha: string -> string, es: seq<Event>, k: string, n: nat, c: nat, d: nat, a1: string, a2: string)
    requires LegalRun(sha, es) && a1 != a2 && a1 !in Run(sha, es).saved && a2 !in Run(sha, es).saved && n <= |es|
    ensures LegalRun(sha, Rushed(es, n, c, d, a1, a2))
    ensures Serial(sha, es, k) ==> Serial(sha, Rushed(es, n, c, d, a1, a2), k)
  {
    PrefixIsSerial(sha, es, k, n);
    SaveIsLegal(sha, es[..n], k, c, a1);
    SaveIsLegal(sha, es[..n] + [Event(0, DoSaveToken(c, a1, ""))], k, d, a2);
  }

  lemma SavedAfterSave(sha: string -> string, s: System, c: nat, access: string)
    ensures forall a :: a in Next(sha, s, DoSaveToken(c, access, "")).saved ==> a in s.saved || a == access
  {
  }

  /** Exactly when a code leaves at most one token: a run is serial for the code if and only if at none of its moments
      any two requests can go on to leave two tokens for it. a1 and a2 are what the random source gives them. */
  lemma OneTokenExactlyWhenSerial(sha: string -> string, es: seq<Event>, k: string, a1: string, a2: string)
    requires LegalRun(sha, es) && a1 != a2 && a1 !in Run(sha, es).saved && a2 !in Run(sha, es).saved
    ensures Serial(sha, es, k) <==>
            forall n: nat, c: nat, d: nat :: n <= |es| ==> SavedFor(sha, Rushed(es, n, c, d, a1, a2), k) <= 1
    ensures forall n: nat, c: nat, d: nat :: n <= |es| ==> LegalRun(sha, Rushed(es, n, c, d, a1, a2))
  {
    forall n: nat, c: nat, d: nat | n <= |es|
      ensures LegalRun(sha, Rushed(es, n, c, d, a1, a2))
      ensures Serial(sha, es, k) ==> SavedFor(sha, Rushed(es, n, c, d, a1, a2), k) <= 1
    {
      RushedIsLegal(sha, es, k, n, c, d, a1, a2);
      if Serial(sha, es, k) {
        OneTokenWhenSerial(sha, Rushed(es, n, c, d, a1, a2), k);
      }
    }
    if !Serial(sha, es, k) {
      var n, c, d := OverlapMakesTwoHolders(sha, es, k);
      TwoHoldersCanSaveTwice(sha, es, n, c, d, k, a1, a2);
    }
  }
}
