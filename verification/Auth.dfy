/**
 Bearer authentication with a cache (internal/server/auth.go).  The password hashes and the salted
 SHA-256 are functions that nothing here looks inside.  Where two tokens with the same digest would
 make a difference, the statement says that no two of the tokens presented so far collide.
 */
module Auth {
  import opened Encoding
  import opened Sqlite
  import opened Wrappers

  datatype Algo = Plaintext | Argon2id | Bcrypt

  datatype AuthToken = AuthToken(role: Role, algo: Algo, value: string)

  type Digest = d: seq<Byte> | |d| == 32 witness seq(32, _ => 0)

  /** The salted digest of a client token, and the two slow password checks. */
  datatype Hashes = Hashes(
    salted: string -> Digest, argon2id: (string, string) -> bool, bcrypt: (string, string) -> bool)
  {
    /** No two of these tokens have the same digest. */
    ghost predicate Distinguish(salt: string, tokens: set<string>) {
      forall a, b :: a in tokens && b in tokens && salted(salt + a) == salted(salt + b) ==> a == b
    }
  }

  /** cryptoutil.GetHashAlgo. */
  function AlgoOf(token: string): Algo {
    if "$argon2id$" <= token then Argon2id
    else if "$2a$" <= token || "$2b$" <= token || "$2y$" <= token then Bcrypt
    else Plaintext
  }

  function TokensOf(role: Role, values: seq<string>): (tokens: seq<AuthToken>)
    ensures |tokens| == |values|
    ensures forall i :: 0 <= i < |values| ==> tokens[i] == AuthToken(role, AlgoOf(values[i]), values[i])
  {
    seq(|values|, i requires 0 <= i < |values| => AuthToken(role, AlgoOf(values[i]), values[i]))
  }

  /** One of the three loops. */
  method AppendTokens(before: seq<AuthToken>, role: Role, values: seq<string>) returns (tokens: seq<AuthToken>)
    ensures tokens == before + TokensOf(role, values)
  {
    tokens := before;
    for i := 0 to |values|
      invariant tokens == before + TokensOf(role, values)[..i]
    {
      tokens := tokens + [AuthToken(role, AlgoOf(values[i]), values[i])];
    }
  }

  method NewAuthTokens(admin: seq<string>, readWrite: seq<string>, readOnly: seq<string>)
    returns (tokens: seq<AuthToken>)
    ensures tokens == TokensOf(Admin, admin) + TokensOf(ReadWrite, readWrite) + TokensOf(ReadOnly, readOnly)
  {
    tokens := AppendTokens([], Admin, admin);
    tokens := AppendTokens(tokens, ReadWrite, readWrite);
    tokens := AppendTokens(tokens, ReadOnly, readOnly);
  }

  predicate CheckAuthToken(h: Hashes, algo: Algo, client: string, server: string) {
    match algo
    case Plaintext => client == server
    case Argon2id => h.argon2id(client, server)
    case Bcrypt => h.bcrypt(client, server)
  }

  predicate Accepts(h: Hashes, token: AuthToken, client: string) {
    CheckAuthToken(h, token.algo, client, token.value)
  }

  /** A fresh scan of the configured tokens: the role of the first that accepts. */
  function Scan(h: Hashes, tokens: seq<AuthToken>, client: string): Option<Role> {
    if tokens == [] then None
    else if Accepts(h, tokens[0], client) then Some(tokens[0].role)
    else Scan(h, tokens[1..], client)
  }

  // ---- Whom a configured value lets in ----

  predicate HasPrefix(value: string, prefix: string) {
    |value| >= |prefix| && value[..|prefix|] == prefix
  }

  predicate IsArgon2id(value: string) {
    HasPrefix(value, "$argon2id$")
  }

  predicate IsBcrypt(value: string) {
    HasPrefix(value, "$2a$") || HasPrefix(value, "$2b$") || HasPrefix(value, "$2y$")
  }

  /** A hash lets in the clients that pass its check, any other value the client equal to it. */
  predicate LetsIn(h: Hashes, value: string, client: string) {
    if IsArgon2id(value) then h.argon2id(client, value)
    else if IsBcrypt(value) then h.bcrypt(client, value)
    else client == value
  }

  lemma PrefixIs(value: string, prefix: string)
    ensures prefix <= value <==> HasPrefix(value, prefix)
  {
  }

  lemma LetsInIs(h: Hashes, role: Role, value: string, client: string)
    ensures Accepts(h, AuthToken(role, AlgoOf(value), value), client) <==> LetsIn(h, value, client)
  {
    PrefixIs(value, "$argon2id$");
    PrefixIs(value, "$2a$");
    PrefixIs(value, "$2b$");
    PrefixIs(value, "$2y$");
    hide HasPrefix;
  }

  predicate AnyLetsIn(h: Hashes, values: seq<string>, client: string) {
    exists v :: v in values && LetsIn(h, v, client)
  }

  lemma {:induction false} ScanAppend(h: Hashes, a: seq<AuthToken>, b: seq<AuthToken>, client: string)
    ensures Scan(h, a + b, client) == if Scan(h, a, client).Some? then Scan(h, a, client) else Scan(h, b, client)
  {
    if a == [] {
      assert a + b == b;
    } else {
      assert (a + b)[1..] == a[1..] + b;
      ScanAppend(h, a[1..], b, client);
    }
  }

  lemma {:induction false} ScanGroup(h: Hashes, role: Role, values: seq<string>, client: string)
    ensures Scan(h, TokensOf(role, values), client) == if AnyLetsIn(h, values, client) then Some(role) else None
  {
    if values != [] {
      LetsInIs(h, role, values[0], client);
      hide LetsIn, Accepts;
      var tokens := TokensOf(role, values);
      assert tokens[1..] == TokensOf(role, values[1..]);
      ScanGroup(h, role, values[1..], client);
      assert forall v :: v in values <==> v == values[0] || v in values[1..];
    }
  }

  /** The role a client gets. */
  function RoleFor(h: Hashes, admin: seq<string>, readWrite: seq<string>, readOnly: seq<string>, client: string)
    : Option<Role>
  {
    if AnyLetsIn(h, admin, client) then Some(Admin)
    else if AnyLetsIn(h, readWrite, client) then Some(ReadWrite)
    else if AnyLetsIn(h, readOnly, client) then Some(ReadOnly)
    else None
  }

  /** A client is an administrator if any administrator token lets it in, else a writer if any
      read-write token does, else a reader if any read-only token does, else nobody. */
  lemma RolePrecedence(h: Hashes, admin: seq<string>, readWrite: seq<string>, readOnly: seq<string>, client: string)
    ensures Scan(h, TokensOf(Admin, admin) + TokensOf(ReadWrite, readWrite) + TokensOf(ReadOnly, readOnly), client) ==
              if AnyLetsIn(h, admin, client) then Some(Admin)
              else if AnyLetsIn(h, readWrite, client) then Some(ReadWrite)
              else if AnyLetsIn(h, readOnly, client) then Some(ReadOnly)
              else None
  {
    hide AnyLetsIn;
    ScanAppend(h, TokensOf(Admin, admin) + TokensOf(ReadWrite, readWrite), TokensOf(ReadOnly, readOnly), client);
    ScanAppend(h, TokensOf(Admin, admin), TokensOf(ReadWrite, readWrite), client);
    ScanGroup(h, Admin, admin, client);
    ScanGroup(h, ReadWrite, readWrite, client);
    ScanGroup(h, ReadOnly, readOnly, client);
  }

  /** With no hash among the configured values, exactly the clients equal to one of them get in. */
  lemma PlaintextOnly(h: Hashes, admin: seq<string>, readWrite: seq<string>, readOnly: seq<string>, client: string)
    requires forall v | v in admin + readWrite + readOnly :: !IsArgon2id(v) && !IsBcrypt(v)
    ensures RoleFor(h, admin, readWrite, readOnly, client).Some? <==> client in admin + readWrite + readOnly
  {
    forall v | v in admin + readWrite + readOnly ensures LetsIn(h, v, client) <==> client == v {
    }
    hide IsArgon2id, IsBcrypt, LetsIn;
  }

  // ---- The principal ----

  /** Sprintf with the verb x: different digests give different principals. */
  lemma HexIsInjective(a: seq<Byte>, b: seq<Byte>)
    requires Hex(a) == Hex(b)
    ensures a == b
  {
    HexRoundTrip(a);
    HexRoundTrip(b);
  }

  function PrincipalOf(h: Hashes, salt: string, client: string): string {
    Hex(h.salted(salt + client))
  }

  /** A principal is never empty, and it is the same for two requests exactly when they present the
      same token: what the ownership check of a transaction compares. */
  lemma PrincipalsIdentify(h: Hashes, salt: string, a: string, b: string)
    requires h.Distinguish(salt, {a, b})
    ensures PrincipalOf(h, salt, a) != ""
    ensures PrincipalOf(h, salt, a) == PrincipalOf(h, salt, b) <==> a == b
  {
    if PrincipalOf(h, salt, a) == PrincipalOf(h, salt, b) {
      HexIsInjective(h.salted(salt + a), h.salted(salt + b));
    }
  }

  // ---- Digests that distinguish ----

  predicate IsShort(s: string) {
    |s| < 32 && forall c | c in s :: c as int < 256
  }

  function ByteAt(s: string, i: nat): Byte
    requires IsShort(s)
  {
    if i == 0 then |s|
    else if i <= |s| then
      assert s[i - 1] in s;
      s[i - 1] as int
    else 0
  }

  /** The length and the characters of a short text, filled up with zeros. */
  function Padded(s: string): Digest {
    seq(32, i requires 0 <= i < 32 => if IsShort(s) then ByteAt(s, i) else 255)
  }

  lemma PaddedDiffers(a: string, b: string)
    requires IsShort(a) && IsShort(b) && Padded(a) == Padded(b)
    ensures a == b
  {
    assert Padded(a)[0] == |a| && Padded(b)[0] == |b|;
    forall i | 0 <= i < |a| ensures a[i] == b[i] {
      assert a[i] in a && b[i] in b;
      assert Padded(a)[i + 1] == a[i] as int && Padded(b)[i + 1] == b[i] as int;
    }
  }

  /** The assumption can be met: there are digests of 32 bytes that distinguish any set of texts shorter
      than that. */
  lemma SomeDistinguish(salt: string, tokens: set<string>)
    requires forall t | t in tokens :: IsShort(salt + t)
    ensures exists h: Hashes :: h.Distinguish(salt, tokens)
  {
    var h := Hashes(Padded, (client, server) => false, (client, server) => false);
    forall a, b | a in tokens && b in tokens && h.salted(salt + a) == h.salted(salt + b) ensures a == b {
      PaddedDiffers(salt + a, salt + b);
      assert (salt + a)[|salt|..] == a && (salt + b)[|salt|..] == b;
    }
    assert h.Distinguish(salt, tokens);
  }

  // ---- The cache ----

  /** Who is asking, or nobody. */
  datatype Identity = Identity(role: Role, principal: string)

  class Server {
    const hashes: Hashes
    const authTokens: seq<AuthToken>
    const authTokenSalt: string
    const admin: seq<string>
    const readWrite: seq<string>
    const readOnly: seq<string>
    var authTokenCache: map<Digest, Role>

    /** The tokens that have been looked up. */
    ghost var presented: set<string>

    function DigestOf(client: string): Digest {
      hashes.salted(authTokenSalt + client)
    }

    /** The tokens are those configured, and every cached role is what a fresh scan finds for a token that
        has been looked up. */
    ghost predicate Valid()
      reads this
    {
      && authTokens == TokensOf(Admin, admin) + TokensOf(ReadWrite, readWrite) + TokensOf(ReadOnly, readOnly)
      && forall d :: d in authTokenCache ==>
        exists c :: c in presented && DigestOf(c) == d && Scan(hashes, authTokens, c) == Some(authTokenCache[d])
    }

    constructor (hashes: Hashes, admin: seq<string>, readWrite: seq<string>, readOnly: seq<string>, salt: string)
      ensures Valid() && presented == {} && this.hashes == hashes && authTokenSalt == salt
      ensures this.admin == admin && this.readWrite == readWrite && this.readOnly == readOnly
    {
      var tokens := NewAuthTokens(admin, readWrite, readOnly);
      this.hashes, authTokens, authTokenSalt := hashes, tokens, salt;
      this.admin, this.readWrite, this.readOnly := admin, readWrite, readOnly;
      authTokenCache, presented := map[], {};
    }

    /** Without the cache: the role that the configured values give the client, and its principal. */
    ghost function Fresh(client: string): Option<Identity> {
      var role := RoleFor(hashes, admin, readWrite, readOnly, client);
      if client == "" || role.None? then None
      else Some(Identity(role.value, PrincipalOf(hashes, authTokenSalt, client)))
    }

    /** As long as no two of the tokens looked up so far collide, the answer is that of a fresh scan,
        whatever the cache holds.  In any case the principal is this token's, and the role is what a
        fresh scan finds for some token with its digest. */
    method CheckAuthWithCache(client: string) returns (who: Option<Identity>)
      requires Valid()
      modifies `authTokenCache, `presented
      ensures Valid() && presented == old(presented) + {client}
      ensures hashes.Distinguish(authTokenSalt, presented) ==> who == Fresh(client)
      ensures who.None? ==> Fresh(client).None?
      ensures who.Some? ==>
        && client != "" && who.value.principal == PrincipalOf(hashes, authTokenSalt, client)
        && exists c :: c in presented && DigestOf(c) == DigestOf(client) &&
                       RoleFor(hashes, admin, readWrite, readOnly, c) == Some(who.value.role)
      ensures forall d :: d in old(authTokenCache) ==>
        d in authTokenCache && authTokenCache[d] == old(authTokenCache)[d]
      ensures authTokenCache.Keys <= old(authTokenCache).Keys + {DigestOf(client)}
    {
      presented := presented + {client};
      forall c ensures Scan(hashes, authTokens, c) == RoleFor(hashes, admin, readWrite, readOnly, c) {
        RolePrecedence(hashes, admin, readWrite, readOnly, c);
      }
      hide RoleFor;
      if client == "" {
        return None;
      }
      var digest := hashes.salted(authTokenSalt + client);
      var principal := Hex(digest);
      if digest in authTokenCache {
        return Some(Identity(authTokenCache[digest], principal));
      }
      for i := 0 to |authTokens|
        invariant Scan(hashes, authTokens, client) == Scan(hashes, authTokens[i..], client)
        invariant authTokenCache == old(authTokenCache)
      {
        var token := authTokens[i];
        if CheckAuthToken(hashes, token.algo, client, token.value) {
          assert DigestOf(client) == digest && Scan(hashes, authTokens, client) == Some(token.role);
          authTokenCache := authTokenCache[digest := token.role];
          return Some(Identity(token.role, principal));
        }
      }
      return None;
    }

    /** Without configured tokens everybody is an administrator without a principal. */
    method AuthenticateRequest(header: string) returns (who: Option<Identity>)
      requires Valid()
      modifies `authTokenCache, `presented
      ensures Valid()
      ensures admin + readWrite + readOnly == [] ==> who == Some(Identity(Admin, "")) && presented == old(presented)
      ensures admin + readWrite + readOnly != [] ==> presented == old(presented) + {WithoutScheme(header)}
      ensures admin + readWrite + readOnly != [] && hashes.Distinguish(authTokenSalt, presented) ==>
        who == Fresh(WithoutScheme(header))
    {
      assert |authTokens| == |admin + readWrite + readOnly|;
      if authTokens == [] {
        return Some(Identity(Admin, ""));
      }
      who := CheckAuthWithCache(WithoutScheme(header));
    }
  }

  function TrimPrefix(s: string, prefix: string): string {
    if prefix <= s then s[|prefix|..] else s
  }

  /** The two prefixes are cut one after the other. */
  function WithoutScheme(header: string): string {
    TrimPrefix(TrimPrefix(header, "Bearer "), "bearer ")
  }

  /** What is looked up: the text after either scheme, or after both in this order; a text that starts
      with none of them as it is. */
  lemma SchemeIsCut(token: string)
    ensures WithoutScheme("bearer " + token) == token
    ensures WithoutScheme("Bearer " + token) == if HasPrefix(token, "bearer ") then token[7..] else token
    ensures !HasPrefix(token, "Bearer ") && !HasPrefix(token, "bearer ") ==> WithoutScheme(token) == token
  {
    var upper, lower := "Bearer ", "bearer ";
    assert upper[0] == 'B' && lower[0] == 'b' && |upper| == |lower| == 7;
    assert (upper + token)[7..] == token && (lower + token)[7..] == token;
    assert (lower + token)[0] == 'b' && upper <= upper + token && lower <= lower + token;
    PrefixIs(token, upper);
    PrefixIs(token, lower);
  }
}
