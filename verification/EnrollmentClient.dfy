/**
 The agent's side of enrollment (enrollment/enrollment.go) and its composition with the server.
 */
module EnrollmentClient {
  import opened Base
  import opened Crypto
  import opened Enrollment
  import opened EnrollmentRuns
  import KeyRotation

  datatype Config = Config(host: Host, key: Key, token: string)

  /** enrollStep1 */
  function Step1(cfg: Config): Request
  {
    Request(cfg.host, PublicKey(cfg.key), cfg.token, None)
  }

  /** decryptChallenge, then the request of enrollStep2: the nonce followed by the token, for the server's key. */
  function Step2(cfg: Config, r: Response): Option<Request>
  {
    if !r.Challenge? then None
    else
      match Decrypt(cfg.key, r.challenge)
      case None => None
      case Some(plain) =>
        if !plain.Bytes? then None
        else
          match Encrypt(r.serverPem, Bytes(plain.bytes + Utf8(cfg.token)))
          case None => None
          case Some(c) => Some(Request(cfg.host, PublicKey(cfg.key), cfg.token, Some(c)))
  }

  /** decryptJWT */
  function Finish(cfg: Config, r: Response): Option<Jwt>
  {
    if !r.Granted? then None
    else
      match Decrypt(cfg.key, r.jwtEncrypted)
      case None => None
      case Some(plain) => if plain.SignedToken? then Some(plain.jwt) else None
  }

  /** Requests for other hosts, and anything the admin does to tokens and keys. */
  predicate AboutOthers(op: Op, h: Host)
  {
    op.Enroll? ==> op.i.req.host != h
  }

  lemma {:induction false} OthersKeepTheChallenge(matches: Matcher, w: World, ops: seq<Op>, h: Host)
    requires forall op | op in ops :: AboutOthers(op, h)
    ensures var w' := Run(matches, w, ops);
            && Lookup(w'.s.nonces, h) == Lookup(w.s.nonces, h)
            && w'.s.ttl == w.s.ttl
            && Lookup(w'.s.db.agents, h) == Lookup(w.s.db.agents, h)
    decreases |ops|
  {
    if ops != [] {
      OtherKeepsTheChallenge(matches, w, ops[0], h);
      OthersKeepTheChallenge(matches, Do(matches, w, ops[0]), ops[1..], h);
    }
  }

  lemma OtherKeepsTheChallenge(matches: Matcher, w: World, op: Op, h: Host)
    requires AboutOthers(op, h)
    ensures var w' := Do(matches, w, op);
            && Lookup(w'.s.nonces, h) == Lookup(w.s.nonces, h)
            && w'.s.ttl == w.s.ttl
            && Lookup(w'.s.db.agents, h) == Lookup(w.s.db.agents, h)
  {
    if op.Enroll? {
      HandleFrame(matches, w.s, op.i);
    }
  }

  lemma HandleFrame(matches: Matcher, s: Server, i: Input)
    ensures var s' := Handle(matches, s, i).0;
            && s'.key == s.key && s'.secret == s.secret && s'.ttl == s.ttl
            && s'.nonces - {i.req.host} == s.nonces - {i.req.host}
            && s'.db.agents - {i.req.host} == s.db.agents - {i.req.host}
            && (forall h | h != i.req.host :: Lookup(s'.nonces, h) == Lookup(s.nonces, h)
                                              && Lookup(s'.db.agents, h) == Lookup(s.db.agents, h))
  {
    NoncesAfter(matches, s, i);
  }

  lemma ChallengeDecrypts(matches: Matcher, s: Server, cfg: Config, i: Input)
    requires i.req == Step1(cfg) && Handle(matches, s, i).1.Challenge?
    ensures var (s', r) := Handle(matches, s, i);
            && s.key.Some? && r == Challenge(Oaep(cfg.key, Bytes(i.nonce)), PublicKey(s.key.value))
            && Lookup(s'.nonces, cfg.host) == Some(PendingNonce(i.nonce, cfg.token, i.now + NONCE_TTL))
            && Step2(cfg, r) == Some(Request(cfg.host, PublicKey(cfg.key), cfg.token,
                                             Some(Oaep(s.key.value, Bytes(i.nonce + Utf8(cfg.token))))))
            && s'.key == s.key && s'.secret == s.secret && s'.ttl == s.ttl
  {
  }

  /** The server's answer to a genuine response to a challenge that is still pending. */
  lemma GenuineResponse(matches: Matcher, s: Server, cfg: Config, i: Input, nonce: seq<Byte>, issuedAt: int, key: Key)
    requires Lookup(s.nonces, cfg.host) == Some(PendingNonce(nonce, cfg.token, issuedAt + NONCE_TTL))
    requires i.req == Request(cfg.host, PublicKey(cfg.key), cfg.token, Some(Oaep(key, Bytes(nonce + Utf8(cfg.token)))))
    ensures var (s', r) := Handle(matches, s, i);
            var jwt := Sign(s.secret, cfg.host, i.jti, i.now, s.ttl);
            && (r.Granted? <==> Validate(matches, s, cfg.token, cfg.host, i.now).Ok? && i.fault == NoFault
                                && s.key == Some(key) && i.now <= issuedAt + NONCE_TTL)
            && (r.Granted? ==> Finish(cfg, r) == Some(jwt)
                               && Lookup(s'.db.agents, cfg.host) == Some(AgentRow(PublicKey(cfg.key), i.jti))
                               && cfg.host !in s'.nonces)
            && (!r.Granted? ==> Finish(cfg, r) == None
                                && Lookup(s'.db.agents, cfg.host) == Lookup(s.db.agents, cfg.host))
  {
    var v := Validate(matches, s, cfg.token, cfg.host, i.now);
    if v.Ok? {
      assert s.db.tokens[Sha256(cfg.token)].id == v.value.id;
    }
  }

  /**
   Enroll against the two phases of the server, with other hosts, the admin and key rotations
   interleaved: it ends with the client holding exactly the JWT the server signed and the agents row
   holding its jti if and only if phase 2 comes within the nonce's lifetime, while the token is still
   accepted and the server still has the key it sent; otherwise the client gets nothing and the row
   is untouched. That JWT is about the client's host, and the server that signed it accepts it as current
   exactly until ttl has passed since phase 2, cut down to a whole second.
   */
  lemma EnrollComposition(matches: Matcher, w: World, cfg: Config, i1: Input, between: seq<Op>, i2: Input)
    requires i1.req == Step1(cfg) && Handle(matches, w.s, i1).1.Challenge?
    requires forall op | op in between :: AboutOthers(op, cfg.host)
    requires Step2(cfg, Handle(matches, w.s, i1).1) == Some(i2.req)
    ensures var w2 := Run(matches, Do(matches, w, Enroll(i1)), between);
            var (s3, r) := Handle(matches, w2.s, i2);
            var jwt := Sign(w2.s.secret, cfg.host, i2.jti, i2.now, w.s.ttl);
            && (Finish(cfg, r).Some? <==>
                  Validate(matches, w2.s, cfg.token, cfg.host, i2.now).Ok? && i2.fault == NoFault
                  && w2.s.key == w.s.key && i2.now <= i1.now + NONCE_TTL)
            && (Finish(cfg, r).Some? ==>
                  Finish(cfg, r) == Some(jwt)
                  && Lookup(s3.db.agents, cfg.host) == Some(AgentRow(PublicKey(cfg.key), jwt.jti)))
            && (Finish(cfg, r).Some? ==>
                  var token := Finish(cfg, r).value;
                  && token.sub == cfg.host && Lookup(s3.db.agents, cfg.host).value.jti == token.jti == i2.jti
                  && KeyRotation.AcceptedBefore(w2.s.secret, token, (i2.now + w.s.ttl) / SECOND * SECOND))
            && (Finish(cfg, r).None? ==> Lookup(s3.db.agents, cfg.host) == Lookup(w2.s.db.agents, cfg.host))
  {
    var w1 := Do(matches, w, Enroll(i1));
    var w2 := Run(matches, w1, between);
    ChallengeDecrypts(matches, w.s, cfg, i1);
    OthersKeepTheChallenge(matches, w1, between, cfg.host);
    GenuineResponse(matches, w2.s, cfg, i2, i1.nonce, i1.now, w.s.key.value);
    KeyRotation.SignedLives(w2.s.secret, cfg.host, i2.jti, i2.now, w.s.ttl);
  }

  /**
   The server registers, and encrypts the JWT for, the key that phase 2 names. That is the key the
   challenge was encrypted for, and its holder can read the JWT, if and only if both phases name the same.
   */
  lemma RegisteredKeyIff(matches: Matcher, w: World, i1: Input, between: seq<Op>, i2: Input)
    requires Handle(matches, w.s, i1).1.Challenge? && i1.req.response.None? && i2.req.host == i1.req.host
    requires forall op | op in between :: AboutOthers(op, i1.req.host)
    requires Handle(matches, Run(matches, Do(matches, w, Enroll(i1)), between).s, i2).1.Granted?
    ensures var w2 := Run(matches, Do(matches, w, Enroll(i1)), between);
            var (s3, r) := Handle(matches, w2.s, i2);
            && i1.req.pem.PublicKey?
            && Decrypt(i1.req.pem.key, Handle(matches, w.s, i1).1.challenge) == Some(Bytes(i1.nonce))
            && Proof(w2.s, i2) == Some(Bytes(i1.nonce + Utf8(i1.req.token)))
            && i2.req.host in s3.db.agents
            && (s3.db.agents[i2.req.host].pem == i1.req.pem <==> i2.req.pem == i1.req.pem)
            && (Decrypt(i1.req.pem.key, r.jwtEncrypted).Some? <==> i2.req.pem == i1.req.pem)
  {
    var w1 := Do(matches, w, Enroll(i1));
    NoncesAfter(matches, w.s, i1);
    OthersKeepTheChallenge(matches, w1, between, i1.req.host);
    var w2 := Run(matches, w1, between);
    GrantNeedsNonce(matches, w2.s, i2);
    DecryptUndoesEncrypt(i1.req.pem.key, i1.req.pem, Bytes(i1.nonce));
    var jwt := Sign(w2.s.secret, i2.req.host, i2.jti, i2.now, w2.s.ttl);
    DecryptUndoesEncrypt(i1.req.pem.key, i2.req.pem, SignedToken(jwt));
  }
}
