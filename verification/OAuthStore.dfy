/** The in-memory OAuth store (internal/auth/storage/memory.go). Every method body between lock and unlock is one
    atomic operation; reading an expired entry takes two, a read and a re-checked deletion. Times are Unix seconds. */
module OAuthStore {

  datatype Client = Client(id: string, secret: string, redirectUris: seq<string>)

  datatype AuthCode = AuthCode(code: string, clientId: string, redirectUri: string, scope: string, challenge: string,
                               challengeMethod: string, expiresAt: int)

  datatype Token = Token(accessToken: string, refreshToken: string, clientId: string, scope: string, expiresAt: int)

  datatype Error =
    | InvalidRequest | InvalidClient | InvalidGrant | UnsupportedGrantType
    | CodeExpired | TokenExpired | ClientAlreadyExists

  datatype Result<+T> = Ok(value: T) | Err(error: Error)

  datatype Store = Store(clients: map<string, Client>, codes: map<string, AuthCode>, tokens: map<string, Token>)

  const EmptyStore := Store(map[], map[], map[])

  // ---- The atomic operations on values ----

  function ReadClient(s: Store, id: string): Result<Client> {
    if id in s.clients then Ok(s.clients[id]) else Err(InvalidClient)
  }

  function AddClient(s: Store, c: Client): (Store, Result<()>) {
    if c.id in s.clients then (s, Err(ClientAlreadyExists)) else (s.(clients := s.clients[c.id := c]), Ok(()))
  }

  function PutCode(s: Store, ac: AuthCode): Store {
    s.(codes := s.codes[ac.code := ac])
  }

  /** The read half of getting a code. */
  function ReadCode(s: Store, code: string, now: int): Result<AuthCode> {
    if code !in s.codes then Err(InvalidGrant)
    else if s.codes[code].expiresAt < now then Err(CodeExpired)
    else Ok(s.codes[code])
  }

  /** The deletion half: the code must still exist and still be expired. */
  function DropStaleCode(s: Store, code: string, now: int): Store {
    if code in s.codes && s.codes[code].expiresAt < now then s.(codes := s.codes - {code}) else s
  }

  function RemoveCode(s: Store, code: string): (Store, Result<()>) {
    if code !in s.codes then (s, Err(InvalidGrant)) else (s.(codes := s.codes - {code}), Ok(()))
  }

  function PutToken(s: Store, t: Token): Store {
    s.(tokens := s.tokens[t.accessToken := t])
  }

  function ReadToken(s: Store, tok: string, now: int): Result<Token> {
    if tok !in s.tokens then Err(InvalidGrant)
    else if s.tokens[tok].expiresAt < now then Err(TokenExpired)
    else Ok(s.tokens[tok])
  }

  function DropStaleToken(s: Store, tok: string, now: int): Store {
    if tok in s.tokens && s.tokens[tok].expiresAt < now then s.(tokens := s.tokens - {tok}) else s
  }

  function RemoveToken(s: Store, tok: string): (Store, Result<()>) {
    if tok !in s.tokens then (s, Err(InvalidGrant)) else (s.(tokens := s.tokens - {tok}), Ok(()))
  }

  /** Getting a code when nothing interleaves: read at t0, re-check at t1. */
  function GetCodeAlone(s: Store, code: string, t0: int, t1: int): (Store, Result<AuthCode>) {
    var r := ReadCode(s, code, t0);
    (if r == Err(CodeExpired) then DropStaleCode(s, code, t1) else s, r)
  }

  function GetTokenAlone(s: Store, tok: string, t0: int, t1: int): (Store, Result<Token>) {
    var r := ReadToken(s, tok, t0);
    (if r == Err(TokenExpired) then DropStaleToken(s, tok, t1) else s, r)
  }

  class MemoryStorage {
    var clients: map<string, Client>
    var authorizationCodes: map<string, AuthCode>
    var tokens: map<string, Token>

    constructor ()
      ensures Contents() == EmptyStore
    {
      clients, authorizationCodes, tokens := map[], map[], map[];
    }

    function Contents(): Store
      reads this
    {
      Store(clients, authorizationCodes, tokens)
    }

    method GetClient(id: string) returns (r: Result<Client>)
      ensures r == ReadClient(Contents(), id)
    {
      if id in clients {
        return Ok(clients[id]);
      }
      r := Err(InvalidClient);
    }

    method CreateClient(c: Client) returns (r: Result<()>)
      modifies this`clients
      ensures (Contents(), r) == AddClient(old(Contents()), c)
    {
      if c.id in clients {
        return Err(ClientAlreadyExists);
      }
      clients := clients[c.id := c];
      r := Ok(());
    }

    method SaveAuthorizationCode(ac: AuthCode)
      modifies this`authorizationCodes
      ensures Contents() == PutCode(old(Contents()), ac)
    {
      authorizationCodes := authorizationCodes[ac.code := ac];
    }

    method GetAuthorizationCode(code: string, t0: int, t1: int) returns (r: Result<AuthCode>)
      modifies this`authorizationCodes
      ensures (Contents(), r) == GetCodeAlone(old(Contents()), code, t0, t1)
    {
      if code !in authorizationCodes {
        return Err(InvalidGrant);
      }
      var ac := authorizationCodes[code];
      if ac.expiresAt < t0 {
        if code in authorizationCodes && authorizationCodes[code].expiresAt < t1 {
          authorizationCodes := authorizationCodes - {code};
        }
        return Err(CodeExpired);
      }
      r := Ok(ac);
    }

    method DeleteAuthorizationCode(code: string) returns (r: Result<()>)
      modifies this`authorizationCodes
      ensures (Contents(), r) == RemoveCode(old(Contents()), code)
    {
      if code !in authorizationCodes {
        return Err(InvalidGrant);
      }
      authorizationCodes := authorizationCodes - {code};
      r := Ok(());
    }

    method SaveToken(t: Token)
      modifies this`tokens
      ensures Contents() == PutToken(old(Contents()), t)
    {
      tokens := tokens[t.accessToken := t];
    }

    method GetToken(tok: string, t0: int, t1: int) returns (r: Result<Token>)
      modifies this`tokens
      ensures (Contents(), r) == GetTokenAlone(old(Contents()), tok, t0, t1)
    {
      if tok !in tokens {
        return Err(InvalidGrant);
      }
      var t := tokens[tok];
      if t.expiresAt < t0 {
        if tok in tokens && tokens[tok].expiresAt < t1 {
          tokens := tokens - {tok};
        }
        return Err(TokenExpired);
      }
      r := Ok(t);
    }

    method DeleteToken(tok: string) returns (r: Result<()>)
      modifies this`tokens
      ensures (Contents(), r) == RemoveToken(old(Contents()), tok)
    {
      if tok !in tokens {
        return Err(InvalidGrant);
      }
      tokens := tokens - {tok};
      r := Ok(());
    }
  }
}
