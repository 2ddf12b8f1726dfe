/**
 Enrollment with a token (handlers/register.go, storage/store_enrollment_tokens.go): a challenge,
 then a response, then a JWT. A request is atomic here except where `Validate` and `Proceed` are
 used apart; each carries the clock reading and the random values it draws.
 */
module Enrollment {
  import opened Base
  import opened Crypto

  /** handlers/register.go:346 */
  const NONCE_TTL: int := 60 * SECOND

  datatype TokenRow = TokenRow(
    id: string, pattern: string, reusable: bool, useCount: nat,
    lastUsed: Option<int>, expires: Option<int>)   // Unix seconds

  datatype AgentRow = AgentRow(pem: Pem, jti: string)

  datatype KeyRow = KeyRow(pem: Pem, approvedBy: string)

  /** The tables; token_hash is UNIQUE, so the rows are kept under it. */
  datatype Db = Db(tokens: map<Digest, TokenRow>, keys: map<Host, KeyRow>, agents: map<Host, AgentRow>)

  datatype PendingNonce = PendingNonce(nonce: seq<Byte>, token: string, expiresAt: int)

  datatype Server = Server(db: Db, nonces: map<Host, PendingNonce>, key: Option<Key>, secret: string, ttl: int)

  /** regexp matching of a non-empty pattern, anchored; a pattern that does not compile matches nothing. */
  type Matcher = (string, string) -> bool

  datatype Code =
    | DbError | TokenNotFound | TokenExpired | TokenAlreadyUsed | HostnameNotAllowed | ServerKeyNotInitialized
    | ChallengeExpiredOrNotIssued | ResponseInvalidEncoding | ResponseDecryptionFailed | ResponseMismatch
    | InvalidPublicKey

  datatype Request = Request(host: Host, pem: Pem, token: string, response: Option<Cipher>)

  /** Database errors a request may run into. */
  datatype Fault = NoFault | LookupFails | ConsumeFails | RegisterFails

  /** A request with everything it reads from outside. */
  datatype Input = Input(req: Request, now: int, nonce: seq<Byte>, jti: string, fault: Fault)

  datatype Response =
    | Refused(code: Code)
    | Challenge(challenge: Cipher, serverPem: Pem)
    | Granted(jwtEncrypted: Cipher, serverPem: Pem)

  // ---- Token store ----

  function SetTokens(s: Server, tokens: map<Digest, TokenRow>): Server
  {
    s.(db := s.db.(tokens := tokens))
  }

  /** INSERT: refused when the id or the hash is taken. */
  function CreateToken(s: Server, hash: Digest, row: TokenRow): Option<Server>
  {
    if hash in s.db.tokens || exists h | h in s.db.tokens :: s.db.tokens[h].id == row.id then None
    else Some(SetTokens(s, s.db.tokens[hash := row.(useCount := 0, lastUsed := None)]))
  }

  /** UPDATE ... SET use_count = use_count + 1 WHERE id = ? */
  function Bump(row: TokenRow, id: string, now: int): TokenRow
  {
    if row.id == id then row.(useCount := row.useCount + 1, lastUsed := Some(Unix(now))) else row
  }

  function ConsumeToken(s: Server, id: string, now: int): Option<Server>
  {
    if exists h | h in s.db.tokens :: s.db.tokens[h].id == id
    then Some(SetTokens(s, map h | h in s.db.tokens :: Bump(s.db.tokens[h], id, now)))
    else None
  }

  function DeleteToken(s: Server, id: string): Server
  {
    SetTokens(s, map h | h in s.db.tokens && s.db.tokens[h].id != id :: s.db.tokens[h])
  }

  /** DELETE ... WHERE expires_at IS NOT NULL AND expires_at <= now */
  function PurgeExpired(s: Server, now: int): Server
  {
    SetTokens(s, map h | h in s.db.tokens
                         && !(s.db.tokens[h].expires.Some? && s.db.tokens[h].expires.value <= Unix(now))
                   :: s.db.tokens[h])
  }

  /** DELETE ... WHERE reusable = 0 AND use_count > 0 */
  function PurgeUsed(s: Server): Server
  {
    SetTokens(s, map h | h in s.db.tokens && (s.db.tokens[h].reusable || s.db.tokens[h].useCount == 0)
                   :: s.db.tokens[h])
  }

  /** What the admin does to tokens, and a key rotation. */
  datatype AdminOp =
    | Create(hash: Digest, row: TokenRow)
    | Delete(id: string)
    | PurgeOld(now: int)
    | PurgeSpent
    | Rotate(key: Key, secret: string)

  /**
   ids has every token id ever created, with its reusable flag. Ids are UUIDs: one that was ever used is
   not created again.
   */
  function Administer(s: Server, ids: map<string, bool>, a: AdminOp): (Server, map<string, bool>)
  {
    match a
    case Create(hash, row) =>
      if row.id in ids then (s, ids)
      else
        (match CreateToken(s, hash, row)
         case None => (s, ids)
         case Some(s') => (s', ids[row.id := row.reusable]))
    case Delete(id) => (DeleteToken(s, id), ids)
    case PurgeOld(now) => (PurgeExpired(s, now), ids)
    case PurgeSpent => (PurgeUsed(s), ids)
    case Rotate(key, secret) => (s.(key := Some(key), secret := secret), ids)
  }

  // ---- Pending nonces ----

  function StoreNonce(s: Server, h: Host, nonce: seq<Byte>, token: string, now: int): Server
  {
    s.(nonces := s.nonces[h := PendingNonce(nonce, token, now + NONCE_TTL)])
  }

  function DropNonce(s: Server, h: Host): Server
  {
    s.(nonces := s.nonces - {h})
  }

  /** consumePendingNonce: what it returns; the entry is deleted in any case. */
  function LiveNonce(s: Server, h: Host, now: int): Option<PendingNonce>
  {
    if h in s.nonces && now <= s.nonces[h].expiresAt then Some(s.nonces[h]) else None
  }

  // ---- A request ----

  /** validateEnrollmentToken, in the order of its checks. */
  function Validate(matches: Matcher, s: Server, token: string, h: Host, now: int): Result<TokenRow, Code>
  {
    var hash := Sha256(token);
    if hash !in s.db.tokens then Err(TokenNotFound)
    else
      var row := s.db.tokens[hash];
      if row.expires.Some? && now > row.expires.value * SECOND then Err(TokenExpired)
      else if !row.reusable && row.useCount > 0 then Err(TokenAlreadyUsed)
      else if row.pattern != "" && !matches(row.pattern, h) then Err(HostnameNotAllowed)
      else Ok(row)
  }

  /** Phase 1: issue a challenge. */
  function IssueChallenge(s: Server, i: Input): (Server, Response)
    requires s.key.Some?
  {
    match Encrypt(i.req.pem, Bytes(i.nonce))
    case None => (s, Refused(InvalidPublicKey))
    case Some(c) =>
      (StoreNonce(s, i.req.host, i.nonce, i.req.token, i.now), Challenge(c, PublicKey(s.key.value)))
  }

  /** Whether the response proves the nonce and the token of the challenge. */
  function CheckResponse(key: Key, p: PendingNonce, response: Cipher): Option<Code>
  {
    if response == NotBase64 then Some(ResponseInvalidEncoding)
    else
      match Decrypt(key, response)
      case None => Some(ResponseDecryptionFailed)
      case Some(plain) => if plain == Bytes(p.nonce + Utf8(p.token)) then None else Some(ResponseMismatch)
  }

  /** Count the use, store the key, register the agent. */
  function Persist(s: Server, tok: TokenRow, i: Input, jwt: Cipher): (Server, Response)
    requires s.key.Some?
  {
    if i.fault == ConsumeFails then (s, Refused(DbError))
    else
      match ConsumeToken(s, tok.id, i.now)
      case None => (s, Refused(DbError))
      case Some(s1) =>
        var s2 := s1.(db := s1.db.(keys := s1.db.keys[i.req.host := KeyRow(i.req.pem, tok.id)]));
        if i.fault == RegisterFails then (s2, Refused(DbError))
        else (s2.(db := s2.db.(agents := s2.db.agents[i.req.host := AgentRow(i.req.pem, i.jti)])),
              Granted(jwt, PublicKey(s.key.value)))
  }

  /** Phase 2: check the response, then issue the JWT. */
  function AnswerResponse(s: Server, tok: TokenRow, i: Input): (Server, Response)
    requires s.key.Some? && i.req.response.Some?
  {
    var dropped := DropNonce(s, i.req.host);
    match LiveNonce(s, i.req.host, i.now)
    case None => (dropped, Refused(ChallengeExpiredOrNotIssued))
    case Some(p) =>
      match CheckResponse(s.key.value, p, i.req.response.value)
      case Some(code) => (dropped, Refused(code))
      case None =>
        match Encrypt(i.req.pem, SignedToken(Sign(s.secret, i.req.host, i.jti, i.now, s.ttl)))
        case None => (dropped, Refused(InvalidPublicKey))
        case Some(c) => Persist(dropped, tok, i, c)
  }

  /** The rest of registerAgentWithToken once the token record is in hand. */
  function Proceed(s: Server, tok: TokenRow, i: Input): (Server, Response)
  {
    if s.key.None? then (s, Refused(ServerKeyNotInitialized))
    else if i.req.response.Some? then AnswerResponse(s, tok, i)
    else IssueChallenge(s, i)
  }

  /** registerAgentWithToken as one atomic step. */
  function Handle(matches: Matcher, s: Server, i: Input): (Server, Response)
  {
    if i.fault == LookupFails then (s, Refused(DbError))
    else
      match Validate(matches, s, i.req.token, i.req.host, i.now)
      case Err(code) => (s, Refused(code))
      case Ok(tok) => Proceed(s, tok, i)
  }

  // ---- What a grant proves ----

  /** What the response of a request decrypts to under the server's key. */
  function Proof(s: Server, i: Input): Option<Plain>
  {
    if s.key.Some? && i.req.response.Some? then Decrypt(s.key.value, i.req.response.value) else None
  }

  /** A grant needs a live challenge of the host, and a response that holds its nonce and its token. */
  lemma GrantNeedsNonce(matches: Matcher, s: Server, i: Input)
    requires Handle(matches, s, i).1.Granted?
    ensures i.req.host in s.nonces && i.now <= s.nonces[i.req.host].expiresAt
    ensures Proof(s, i) == Some(Bytes(s.nonces[i.req.host].nonce + Utf8(s.nonces[i.req.host].token)))
  {
    assert CheckResponse(s.key.value, s.nonces[i.req.host], i.req.response.value).None?;
  }

  /** With nonces of one length, no two pairs of nonce and token have the same proof. */
  lemma ProofIsUnambiguous(nonce: seq<Byte>, token: string, nonce': seq<Byte>, token': string)
    requires |nonce| == |nonce'|
    ensures Bytes(nonce + Utf8(token)) == Bytes(nonce' + Utf8(token')) <==> nonce == nonce' && token == token'
  {
    if nonce + Utf8(token) == nonce' + Utf8(token') {
      assert nonce == (nonce + Utf8(token))[..|nonce|] == nonce';
      assert Utf8(token) == (nonce + Utf8(token))[|nonce|..] == Utf8(token');
      Utf8Injective(token, token');
    }
  }

  // ---- Deleted tokens ----

  /** A deleted token is unknown from then on, and no other token is judged differently. */
  lemma DeleteRevokes(matches: Matcher, s: Server, id: string, token: string, h: Host, now: int)
    ensures Validate(matches, DeleteToken(s, id), token, h, now) ==
            if Sha256(token) in s.db.tokens && s.db.tokens[Sha256(token)].id == id then Err(TokenNotFound)
            else Validate(matches, s, token, h, now)
  {
  }

  // ---- A purge is invisible to later requests ----

  /** No request after t can succeed with this row, whatever happens to it. */
  predicate DeadAfter(row: TokenRow, t: int)
  {
    || (row.expires.Some? && row.expires.value * SECOND <= t)
    || (!row.reusable && row.useCount > 0)
  }

  /** A token is accepted exactly when its row is there, is not dead by now, and allows the host. */
  lemma ValidIff(matches: Matcher, s: Server, token: string, h: Host, now: int)
    ensures var v := Validate(matches, s, token, h, now);
            var hash := Sha256(token);
            && (v.Ok? <==> hash in s.db.tokens && !DeadAfter(s.db.tokens[hash], now - 1)
                           && (s.db.tokens[hash].pattern == "" || matches(s.db.tokens[hash].pattern, h)))
            && (v.Ok? ==> v.value == s.db.tokens[hash])
            && (v.Err? ==> (v.error == TokenNotFound <==> hash !in s.db.tokens)
                           && (v.error == TokenExpired || v.error == TokenAlreadyUsed
                               <==> hash in s.db.tokens && DeadAfter(s.db.tokens[hash], now - 1)))
  {
  }

  /** p is s without some rows that are dead after t. */
  ghost predicate Purged(s: Server, p: Server, t: int)
  {
    && p == SetTokens(s, p.db.tokens)
    && (forall h | h in p.db.tokens :: h in s.db.tokens && p.db.tokens[h] == s.db.tokens[h])
    && (forall h | h in s.db.tokens && h !in p.db.tokens :: DeadAfter(s.db.tokens[h], t))
  }

  /** Same decision; a purged token is reported as unknown instead of expired or used. */
  predicate SameDecision(r: Response, q: Response)
  {
    || r == q
    || (r.Refused? && (r.code == TokenExpired || r.code == TokenAlreadyUsed) && q == Refused(TokenNotFound))
  }

  lemma UnixCutsDown(t: int)
    ensures Unix(t) * SECOND <= t < (Unix(t) + 1) * SECOND
  {
  }

  lemma PurgesRemoveDeadRows(s: Server, t: int)
    ensures Purged(s, PurgeExpired(s, t), t)
    ensures Purged(s, PurgeUsed(s), t)
    ensures Purged(s, PurgeUsed(PurgeExpired(s, t)), t)
    ensures forall h :: h in PurgeExpired(s, t).db.tokens <==>
                        h in s.db.tokens && (s.db.tokens[h].expires.None? || s.db.tokens[h].expires.value > t / SECOND)
    ensures forall h :: h in PurgeUsed(s).db.tokens <==>
                        h in s.db.tokens && (s.db.tokens[h].reusable || s.db.tokens[h].useCount == 0)
  {
    UnixCutsDown(t);
    forall h | h in s.db.tokens && s.db.tokens[h].expires.Some? && s.db.tokens[h].expires.value <= Unix(t)
      ensures s.db.tokens[h].expires.value * SECOND <= t
    {
    }
  }

  lemma ConsumeKeepsPurged(s: Server, p: Server, t: int, hash: Digest, now: int)
    requires Purged(s, p, t) && hash in p.db.tokens
    ensures var id := p.db.tokens[hash].id;
            var s', p' := ConsumeToken(s, id, now), ConsumeToken(p, id, now);
            s'.Some? && p'.Some? && Purged(s'.value, p'.value, t)
  {
    assert s.db.tokens[hash].id == p.db.tokens[hash].id;
  }

  lemma PersistKeepsPurged(s: Server, p: Server, t: int, hash: Digest, i: Input, jwt: Cipher)
    requires Purged(s, p, t) && hash in p.db.tokens && s.key.Some?
    ensures var tok := p.db.tokens[hash];
            Purged(Persist(s, tok, i, jwt).0, Persist(p, tok, i, jwt).0, t)
            && Persist(s, tok, i, jwt).1 == Persist(p, tok, i, jwt).1
  {
    ConsumeKeepsPurged(s, p, t, hash, i.now);
  }

  lemma ProceedKeepsPurged(s: Server, p: Server, t: int, hash: Digest, i: Input)
    requires Purged(s, p, t) && hash in p.db.tokens
    ensures var tok := p.db.tokens[hash];
            Purged(Proceed(s, tok, i).0, Proceed(p, tok, i).0, t) && Proceed(s, tok, i).1 == Proceed(p, tok, i).1
  {
    if s.key.Some? && i.req.response.Some? {
      var c := Encrypt(i.req.pem, SignedToken(Sign(s.secret, i.req.host, i.jti, i.now, s.ttl)));
      if c.Some? {
        PersistKeepsPurged(DropNonce(s, i.req.host), DropNonce(p, i.req.host), t, hash, i, c.value);
      }
    }
  }

  /** One request strictly after the purge decides the same and keeps the states alike. */
  lemma RequestAfterPurge(matches: Matcher, s: Server, p: Server, t: int, i: Input)
    requires Purged(s, p, t) && i.now > t
    ensures Purged(Handle(matches, s, i).0, Handle(matches, p, i).0, t)
    ensures SameDecision(Handle(matches, s, i).1, Handle(matches, p, i).1)
  {
    var hash := Sha256(i.req.token);
    if hash in p.db.tokens {
      ProceedKeepsPurged(s, p, t, hash, i);
    }
  }

  /** A run of requests: the state after it and the responses. */
  function Serve(matches: Matcher, s: Server, inputs: seq<Input>): (Server, seq<Response>)
    decreases |inputs|
  {
    if inputs == [] then (s, [])
    else
      var (s1, r) := Handle(matches, s, inputs[0]);
      var (s2, rs) := Serve(matches, s1, inputs[1..]);
      (s2, [r] + rs)
  }

  /**
   For every run of requests after a purge, accept and refuse decisions, the nonce table, the agents
   and the surviving rows are those of the run without the purge.
   */
  lemma {:induction false} PurgeIsInvisible(matches: Matcher, s: Server, p: Server, t: int, inputs: seq<Input>)
    requires Purged(s, p, t) && forall i | i in inputs :: i.now > t
    ensures var (s', rs) := Serve(matches, s, inputs);
            var (p', qs) := Serve(matches, p, inputs);
            && |rs| == |qs| == |inputs|
            && (forall n | 0 <= n < |inputs| :: SameDecision(rs[n], qs[n]))
            && p'.nonces == s'.nonces && p'.db.agents == s'.db.agents && p'.db.keys == s'.db.keys
            && Purged(s', p', t)
    decreases |inputs|
  {
    if inputs != [] {
      RequestAfterPurge(matches, s, p, t, inputs[0]);
      PurgeIsInvisible(matches, Handle(matches, s, inputs[0]).0, Handle(matches, p, inputs[0]).0, t, inputs[1..]);
    }
  }

  /** "Strictly after" is needed: at the very instant of the expiry the purge already removes the token. */
  lemma PurgeVisibleAtTheInstant(matches: Matcher, s: Server, i: Input)
    requires i.fault == NoFault && s.key.Some? && i.req.response.None? && i.req.pem.PublicKey?
    requires Validate(matches, s, i.req.token, i.req.host, i.now).Ok?
    ensures Handle(matches, s, i).1.Challenge?
    ensures var row := Validate(matches, s, i.req.token, i.req.host, i.now).value;
            Handle(matches, PurgeExpired(s, i.now), i).1 == Refused(TokenNotFound)
            <==> row.expires == Some(Unix(i.now)) && i.now % SECOND == 0
  {
    UnixCutsDown(i.now);
  }
}
