/**
 The enrollment state as the server keeps it: a nonce table and database rows that its methods
 update in place. Each method is proved against the functions of module Enrollment.
 */
module EnrollmentService {
  import opened Base
  import opened Crypto
  import opened Enrollment
  import KeyRotation

  /**
   The JWT of a grant: for the key the request names, about its host, and accepted as current under the
   secret exactly until ttl has passed, cut down to a whole second.
   */
  ghost predicate HandsOut(i: Input, r: Response, secret: string, ttl: int)
    requires r.Granted?
  {
    && i.req.pem.PublicKey?
    && var plain := Decrypt(i.req.pem.key, r.jwtEncrypted);
    && plain.Some? && plain.value.SignedToken?
    && plain.value.jwt.sub == i.req.host && plain.value.jwt.jti == i.jti && plain.value.jwt.iat == i.now / SECOND
    && KeyRotation.AcceptedBefore(secret, plain.value.jwt, (i.now + ttl) / SECOND * SECOND)
  }

  /** One more use of the rows with this id, at this time. */
  ghost predicate OneMoreUse(before: map<Digest, TokenRow>, id: string, now: int, after: map<Digest, TokenRow>)
  {
    && after.Keys == before.Keys
    && (forall h | h in before && before[h].id != id :: after[h] == before[h])
    && (forall h | h in before && before[h].id == id ::
          after[h] == before[h].(useCount := before[h].useCount + 1, lastUsed := Some(now / SECOND)))
  }

  class Service {
    const matches: Matcher
    var pendingNonces: map<Host, PendingNonce>
    var tokens: map<Digest, TokenRow>
    var keys: map<Host, KeyRow>
    var agents: map<Host, AgentRow>
    var key: Option<Key>
    var secret: string
    var ttl: int

    function Now(): Server
      reads this
    {
      Server(Db(tokens, keys, agents), pendingNonces, key, secret, ttl)
    }

    constructor (matches: Matcher, key: Option<Key>, secret: string, ttl: int)
      ensures this.matches == matches
      ensures Now() == Server(Db(map[], map[], map[]), map[], key, secret, ttl)
    {
      this.matches := matches;
      pendingNonces, tokens, keys, agents := map[], map[], map[], map[];
      this.key, this.secret, this.ttl := key, secret, ttl;
    }

    method StorePendingNonce(hostname: Host, nonce: seq<Byte>, token: string, now: int)
      modifies this
      ensures Now() == StoreNonce(old(Now()), hostname, nonce, token, now)
      ensures pendingNonces == old(pendingNonces)[hostname := PendingNonce(nonce, token, now + 60 * SECOND)]
    {
      pendingNonces := pendingNonces[hostname := PendingNonce(nonce, token, now + NONCE_TTL)];
    }

    /** The entry is gone afterwards whether or not it was still valid. */
    method ConsumePendingNonce(hostname: Host, now: int) returns (found: Option<PendingNonce>)
      modifies this
      ensures found == LiveNonce(old(Now()), hostname, now)
      ensures Now() == DropNonce(old(Now()), hostname)
      ensures pendingNonces == old(pendingNonces) - {hostname}
      ensures found.Some? <==> hostname in old(pendingNonces) && now <= old(pendingNonces)[hostname].expiresAt
      ensures found.Some? ==> found.value == old(pendingNonces)[hostname]
    {
      if hostname !in pendingNonces {
        assert pendingNonces - {hostname} == pendingNonces;
        return None;
      }
      var p := pendingNonces[hostname];
      pendingNonces := pendingNonces - {hostname};
      if now > p.expiresAt {
        return None;
      }
      return Some(p);
    }

    method ConsumeEnrollmentToken(id: string, now: int) returns (ok: bool)
      modifies this
      ensures ok <==> ConsumeToken(old(Now()), id, now).Some?
      ensures Now() == if ok then ConsumeToken(old(Now()), id, now).value else old(Now())
      ensures ok <==> exists h | h in old(tokens) :: old(tokens)[h].id == id
      ensures OneMoreUse(old(tokens), id, now, tokens)
    {
      var affected := set h | h in tokens && tokens[h].id == id;
      if affected == {} {
        assert forall h | h in tokens :: tokens[h].id != id by {
          forall h | h in tokens ensures tokens[h].id != id {
            assert h !in affected;
          }
        }
        return false;
      }
      var hash :| hash in affected;
      tokens := map h | h in tokens :: Bump(tokens[h], id, now);
      return true;
    }

    method CreateEnrollmentToken(hash: Digest, row: TokenRow) returns (ok: bool)
      modifies this
      ensures ok <==> CreateToken(old(Now()), hash, row).Some?
      ensures Now() == if ok then CreateToken(old(Now()), hash, row).value else old(Now())
      ensures ok <==> hash !in old(tokens) && forall h | h in old(tokens) :: old(tokens)[h].id != row.id
      ensures tokens ==
              if ok then old(tokens)[hash := TokenRow(row.id, row.pattern, row.reusable, 0, None, row.expires)]
              else old(tokens)
    {
      if hash in tokens || exists h | h in tokens :: tokens[h].id == row.id {
        return false;
      }
      tokens := tokens[hash := row.(useCount := 0, lastUsed := None)];
      return true;
    }

    method PurgeExpiredEnrollmentTokens(now: int) returns (deleted: nat)
      modifies this
      ensures Now() == PurgeExpired(old(Now()), now)
      ensures forall h :: h in tokens <==> h in old(tokens) && (old(tokens)[h].expires.None?
                                                                || old(tokens)[h].expires.value > now / SECOND)
      ensures forall h | h in tokens :: tokens[h] == old(tokens)[h]
      ensures deleted == |old(tokens)| - |tokens|
    {
      var kept := map h | h in tokens && !(tokens[h].expires.Some? && tokens[h].expires.value <= Unix(now))
                    :: tokens[h];
      FewerKeys(kept, tokens);
      deleted := |tokens| - |kept|;
      tokens := kept;
    }

    method PurgeUsedOneShotEnrollmentTokens() returns (deleted: nat)
      modifies this
      ensures Now() == PurgeUsed(old(Now()))
      ensures forall h :: h in tokens <==>
                          h in old(tokens) && (old(tokens)[h].reusable || old(tokens)[h].useCount == 0)
      ensures forall h | h in tokens :: tokens[h] == old(tokens)[h]
      ensures deleted == |old(tokens)| - |tokens|
    {
      var kept := map h | h in tokens && (tokens[h].reusable || tokens[h].useCount == 0) :: tokens[h];
      FewerKeys(kept, tokens);
      deleted := |tokens| - |kept|;
      tokens := kept;
    }

    method ValidateEnrollmentToken(token: string, hostname: Host, now: int) returns (r: Result<TokenRow, Code>)
      ensures r == Validate(matches, Now(), token, hostname, now)
      ensures r.Ok? <==> Sha256(token) in tokens && !DeadAfter(tokens[Sha256(token)], now - 1)
                         && (tokens[Sha256(token)].pattern == "" || matches(tokens[Sha256(token)].pattern, hostname))
      ensures r.Ok? ==> r.value == tokens[Sha256(token)]
      ensures r == Err(TokenNotFound) <==> Sha256(token) !in tokens
      ensures r == Err(TokenExpired) || r == Err(TokenAlreadyUsed)
              <==> Sha256(token) in tokens && DeadAfter(tokens[Sha256(token)], now - 1)
    {
      ValidIff(matches, Now(), token, hostname, now);
      var hash := Sha256(token);
      if hash !in tokens {
        return Err(TokenNotFound);
      }
      var row := tokens[hash];
      if row.expires.Some? && now > row.expires.value * SECOND {
        return Err(TokenExpired);
      }
      if !row.reusable && row.useCount > 0 {
        return Err(TokenAlreadyUsed);
      }
      if row.pattern != "" && !matches(row.pattern, hostname) {
        return Err(HostnameNotAllowed);
      }
      return Ok(row);
    }

    method RegisterAgentWithToken(i: Input) returns (r: Response)
      modifies this
      ensures (Now(), r) == Handle(matches, old(Now()), i)
      ensures r.Granted? ==> i.req.host in old(pendingNonces) && i.now <= old(pendingNonces)[i.req.host].expiresAt
      ensures r.Granted? ==> Proof(old(Now()), i) == Some(Bytes(old(pendingNonces)[i.req.host].nonce
                                                                + Utf8(old(pendingNonces)[i.req.host].token)))
      ensures r.Granted? ==> agents == old(agents)[i.req.host := AgentRow(i.req.pem, i.jti)]
                             && pendingNonces == old(pendingNonces) - {i.req.host}
                             && Sha256(i.req.token) in old(tokens)
                             && OneMoreUse(old(tokens), old(tokens)[Sha256(i.req.token)].id, i.now, tokens)
                             && keys == old(keys)[i.req.host :=
                                                  KeyRow(i.req.pem, old(tokens)[Sha256(i.req.token)].id)]
      ensures r.Granted? ==> HandsOut(i, r, secret, ttl) && old(key) == Some(r.serverPem.key)
      ensures r.Challenge? ==> tokens == old(tokens) && agents == old(agents) && keys == old(keys)
      ensures r.Challenge? ==>
                && i.req.pem.PublicKey? && Decrypt(i.req.pem.key, r.challenge) == Some(Bytes(i.nonce))
                && old(key) == Some(r.serverPem.key)
                && pendingNonces == old(pendingNonces)[i.req.host :=
                                                       PendingNonce(i.nonce, i.req.token, i.now + 60 * SECOND)]
      ensures key == old(key) && secret == old(secret) && ttl == old(ttl)
      ensures r.Refused? ==> agents == old(agents) && (tokens == old(tokens) || i.fault == RegisterFails)
    {
      if Handle(matches, Now(), i).1.Granted? {
        GrantNeedsNonce(matches, Now(), i);
      }
      if i.fault == LookupFails {
        return Refused(DbError);
      }
      var v := ValidateEnrollmentToken(i.req.token, i.req.host, i.now);
      if v.Err? {
        return Refused(v.error);
      }
      if key.None? {
        return Refused(ServerKeyNotInitialized);
      }
      if i.req.response.Some? {
        r := VerifyResponse(v.value, i);
        return;
      }
      var challenge := Encrypt(i.req.pem, Bytes(i.nonce));
      if challenge.None? {
        return Refused(InvalidPublicKey);
      }
      StorePendingNonce(i.req.host, i.nonce, i.req.token, i.now);
      return Challenge(challenge.value, PublicKey(key.value));
    }

    method VerifyResponse(tok: TokenRow, i: Input) returns (r: Response)
      requires key.Some? && i.req.response.Some?
      modifies this
      ensures (Now(), r) == AnswerResponse(old(Now()), tok, i)
      ensures pendingNonces == old(pendingNonces) - {i.req.host}
      ensures r.Granted? ==> agents == old(agents)[i.req.host := AgentRow(i.req.pem, i.jti)]
                             && keys == old(keys)[i.req.host := KeyRow(i.req.pem, tok.id)]
                             && OneMoreUse(old(tokens), tok.id, i.now, tokens)
                             && HandsOut(i, r, secret, ttl) && r.serverPem == PublicKey(key.value)
      ensures key == old(key) && secret == old(secret) && ttl == old(ttl)
      ensures !r.Granted? ==> agents == old(agents) && !r.Challenge?
    {
      var p := ConsumePendingNonce(i.req.host, i.now);
      if p.None? {
        return Refused(ChallengeExpiredOrNotIssued);
      }
      var code := CheckResponse(key.value, p.value, i.req.response.value);
      if code.Some? {
        return Refused(code.value);
      }
      KeyRotation.SignedLives(secret, i.req.host, i.jti, i.now, ttl);
      var jwt := Encrypt(i.req.pem, SignedToken(Sign(secret, i.req.host, i.jti, i.now, ttl)));
      if jwt.None? {
        return Refused(InvalidPublicKey);
      }
      if i.fault == ConsumeFails {
        return Refused(DbError);
      }
      var ok := ConsumeEnrollmentToken(tok.id, i.now);
      if !ok {
        return Refused(DbError);
      }
      keys := keys[i.req.host := KeyRow(i.req.pem, tok.id)];
      if i.fault == RegisterFails {
        return Refused(DbError);
      }
      agents := agents[i.req.host := AgentRow(i.req.pem, i.jti)];
      return Granted(jwt.value, PublicKey(key.value));
    }
  }

  lemma {:induction false} FewerKeys<K, V>(a: map<K, V>, b: map<K, V>)
    requires a.Keys <= b.Keys
    ensures |a| <= |b|
  {
    SubsetSize(a.Keys, b.Keys);
  }

  lemma {:induction false} SubsetSize<T>(a: set<T>, b: set<T>)
    requires a <= b
    ensures |a| <= |b|
  {
    if a != {} {
      var x :| x in a;
      SubsetSize(a - {x}, b - {x});
    }
  }
}
