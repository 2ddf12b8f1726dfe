/**
 Whole runs of the enrollment endpoint: requests, the admin's creating, deleting and purging of
 tokens, and key rotations, in any order and number. The history records what was issued, and for every
 grant what its response decrypted to.
 */
module EnrollmentRuns {
  import opened Base
  import opened Crypto
  import opened Enrollment

  datatype Entry =
    | Issued(host: Host, nonce: seq<Byte>, token: string, at: int)
    | Grant(host: Host, at: int, tokenId: string, proof: Option<Plain>)

  datatype Op =
    | Enroll(i: Input)
    | Admin(a: AdminOp)

  /** ids: every token id ever created, with its reusable flag. */
  datatype World = World(s: Server, hist: seq<Entry>, ids: map<string, bool>)

  /** The id of the row a phase-2 request is charged to. */
  function ChargedId(s: Server, i: Input): string
  {
    if Sha256(i.req.token) in s.db.tokens then s.db.tokens[Sha256(i.req.token)].id else ""
  }

  function Record(s: Server, i: Input, r: Response): seq<Entry>
  {
    match r
    case Refused(_) => []
    case Challenge(_, _) => [Issued(i.req.host, i.nonce, i.req.token, i.now)]
    case Granted(_, _) => [Grant(i.req.host, i.now, ChargedId(s, i), Proof(s, i))]
  }

  function Do(matches: Matcher, w: World, op: Op): World
  {
    match op
    case Enroll(i) =>
      var (s', r) := Handle(matches, w.s, i);
      w.(s := s', hist := w.hist + Record(w.s, i, r))
    case Admin(a) =>
      var (s', ids) := Administer(w.s, w.ids, a);
      w.(s := s', ids := ids)
  }

  function Run(matches: Matcher, w: World, ops: seq<Op>): World
    decreases |ops|
  {
    if ops == [] then w else Run(matches, Do(matches, w, ops[0]), ops[1..])
  }

  /** A server with no tokens and no challenges yet; its keys and agents are whatever they are. */
  predicate Fresh(w: World)
  {
    w.s.db.tokens == map[] && w.s.nonces == map[] && w.hist == [] && w.ids == map[]
  }

  // ---- Use counts ----

  /** How many enrollments were granted on the token with this id. */
  function Grants(hist: seq<Entry>, id: string): nat
  {
    if hist == [] then 0
    else
      var last := hist[|hist| - 1];
      Grants(hist[..|hist| - 1], id) + if last.Grant? && last.tokenId == id then 1 else 0
  }

  ghost predicate UsesOk(w: World)
  {
    && (forall h | h in w.s.db.tokens ::
          var row := w.s.db.tokens[h];
          row.id in w.ids && w.ids[row.id] == row.reusable && Grants(w.hist, row.id) <= row.useCount)
    && (forall g, h | g in w.s.db.tokens && h in w.s.db.tokens && w.s.db.tokens[g].id == w.s.db.tokens[h].id :: g == h)
    && (forall id | id !in w.ids :: Grants(w.hist, id) == 0)
    && (forall id | id in w.ids && !w.ids[id] :: Grants(w.hist, id) <= 1)
  }

  lemma GrantsSnoc(hist: seq<Entry>, e: Entry, id: string)
    ensures Grants(hist + [e], id) == Grants(hist, id) + if e.Grant? && e.tokenId == id then 1 else 0
  {
    assert (hist + [e])[..|hist + [e]| - 1] == hist;
  }

  lemma PersistTokens(s: Server, tok: TokenRow, i: Input, jwt: Cipher)
    requires s.key.Some?
    ensures var (s', r) := Persist(s, tok, i, jwt);
            || (s'.db.tokens == s.db.tokens && !r.Granted?)
            || s'.db.tokens == map h | h in s.db.tokens :: Bump(s.db.tokens[h], tok.id, i.now)
  {
  }

  lemma ProceedTokens(s: Server, tok: TokenRow, i: Input)
    ensures var (s', r) := Proceed(s, tok, i);
            || (s'.db.tokens == s.db.tokens && !r.Granted?)
            || (i.req.host in s.nonces
                && s'.db.tokens == map h | h in s.db.tokens :: Bump(s.db.tokens[h], tok.id, i.now))
  {
    if s.key.Some? && i.req.response.Some? {
      var jwt := Encrypt(i.req.pem, SignedToken(Sign(s.secret, i.req.host, i.jti, i.now, s.ttl)));
      if jwt.Some? {
        PersistTokens(DropNonce(s, i.req.host), tok, i, jwt.value);
      }
    }
  }

  /** What a request does to the token table: nothing, or one more use of the row it named. */
  lemma TokensAfter(matches: Matcher, s: Server, i: Input)
    ensures var (s', r) := Handle(matches, s, i);
            var v := Validate(matches, s, i.req.token, i.req.host, i.now);
            || (s'.db.tokens == s.db.tokens && !r.Granted?)
            || (v.Ok? && i.req.host in s.nonces
                && s'.db.tokens == map h | h in s.db.tokens :: Bump(s.db.tokens[h], v.value.id, i.now))
  {
    var v := Validate(matches, s, i.req.token, i.req.host, i.now);
    if v.Ok? {
      ProceedTokens(s, v.value, i);
    }
  }

  /** A history entry that is no grant changes no count; a grant adds one to the token it names. */
  lemma GrantsAfter(matches: Matcher, w: World, i: Input, id: string)
    ensures var (s', r) := Handle(matches, w.s, i);
            Grants(w.hist + Record(w.s, i, r), id) ==
            Grants(w.hist, id) + if r.Granted? && ChargedId(w.s, i) == id then 1 else 0
  {
    var rec := Record(w.s, i, Handle(matches, w.s, i).1);
    if rec == [] {
      assert w.hist + rec == w.hist;
    } else {
      GrantsSnoc(w.hist, rec[0], id);
    }
  }

  lemma EnrollKeepsUses(matches: Matcher, w: World, i: Input)
    requires UsesOk(w)
    ensures UsesOk(Do(matches, w, Enroll(i)))
  {
    TokensAfter(matches, w.s, i);
    var w' := Do(matches, w, Enroll(i));
    forall id ensures Grants(w'.hist, id) == Grants(w.hist, id) +
      if Handle(matches, w.s, i).1.Granted? && ChargedId(w.s, i) == id then 1 else 0
    {
      GrantsAfter(matches, w, i, id);
    }
  }

  /** A token is created under an id, and a hash, of its own. */
  lemma Created(s: Server, ids: map<string, bool>, hash: Digest, row: TokenRow)
    ensures var (s', ids') := Administer(s, ids, Create(hash, row));
            || (s' == s && ids' == ids)
            || (hash !in s.db.tokens && row.id !in ids && ids' == ids[row.id := row.reusable]
                && s'.db.tokens == s.db.tokens[hash := row.(useCount := 0, lastUsed := None)])
  {
  }

  lemma CreateKeepsUses(matches: Matcher, w: World, hash: Digest, row: TokenRow)
    requires UsesOk(w)
    ensures UsesOk(Do(matches, w, Admin(Create(hash, row))))
  {
    Created(w.s, w.ids, hash, row);
  }

  lemma OpKeepsUses(matches: Matcher, w: World, op: Op)
    requires UsesOk(w)
    ensures UsesOk(Do(matches, w, op))
  {
    match op
    case Enroll(i) => EnrollKeepsUses(matches, w, i);
    case Admin(Create(hash, row)) => CreateKeepsUses(matches, w, hash, row);
    case Admin(_) =>
  }

  lemma {:induction false} RunKeepsUses(matches: Matcher, w: World, ops: seq<Op>)
    requires UsesOk(w)
    ensures UsesOk(Run(matches, w, ops))
    decreases |ops|
  {
    if ops != [] {
      OpKeepsUses(matches, w, ops[0]);
      RunKeepsUses(matches, Do(matches, w, ops[0]), ops[1..]);
    }
  }

  /** A one-shot token enrolls at most one agent, ever: not even deleting or purging it changes that. */
  lemma OneShotOnce(matches: Matcher, w: World, ops: seq<Op>, id: string)
    requires Fresh(w)
    ensures var w' := Run(matches, w, ops);
            id in w'.ids && !w'.ids[id] ==> Grants(w'.hist, id) <= 1
  {
    RunKeepsUses(matches, w, ops);
  }

  /** The successes of a token never exceed its use count. */
  lemma GrantsWithinUseCount(matches: Matcher, w: World, ops: seq<Op>, hash: Digest)
    requires Fresh(w)
    ensures var w' := Run(matches, w, ops);
            hash in w'.s.db.tokens ==> Grants(w'.hist, w'.s.db.tokens[hash].id) <= w'.s.db.tokens[hash].useCount
  {
    RunKeepsUses(matches, w, ops);
  }

  // ---- A refused token ----

  /** Only creating the token again would bring a dead row back. */
  predicate Recreates(op: Op, hash: Digest)
  {
    op.Admin? && op.a.Create? && op.a.hash == hash
  }

  ghost predicate GoneOrDead(w: World, hash: Digest, t: int)
  {
    hash in w.s.db.tokens ==> DeadAfter(w.s.db.tokens[hash], t)
  }

  lemma AdminLeavesDead(w: World, a: AdminOp, hash: Digest, t: int)
    requires GoneOrDead(w, hash, t) && !Recreates(Admin(a), hash)
    ensures var s' := Administer(w.s, w.ids, a).0;
            hash in s'.db.tokens ==> DeadAfter(s'.db.tokens[hash], t)
  {
  }

  lemma DeadStaysDead(matches: Matcher, w: World, op: Op, hash: Digest, t: int)
    requires GoneOrDead(w, hash, t) && !Recreates(op, hash)
    ensures GoneOrDead(Do(matches, w, op), hash, t)
  {
    match op
    case Enroll(i) => TokensAfter(matches, w.s, i);
    case Admin(a) => AdminLeavesDead(w, a, hash, t);
  }

  /** A token that is expired or used at time t is refused at every later time, whatever happens meanwhile. */
  lemma {:induction false} RefusedForGood(
      matches: Matcher, w: World, ops: seq<Op>, token: string, t: int, h: Host, now: int)
    requires GoneOrDead(w, Sha256(token), t) && now > t
    requires forall op | op in ops :: !Recreates(op, Sha256(token))
    ensures var v := Validate(matches, Run(matches, w, ops).s, token, h, now);
            v == Err(TokenNotFound) || v == Err(TokenExpired) || v == Err(TokenAlreadyUsed)
    decreases |ops|
  {
    if ops != [] {
      DeadStaysDead(matches, w, ops[0], Sha256(token), t);
      RefusedForGood(matches, Do(matches, w, ops[0]), ops[1..], token, t, h, now);
    }
  }

  // ---- Every grant answers the latest challenge of its host ----

  /**
   i is the latest entry about the host of the grant at j, it is a challenge recent enough, and what the
   grant was given for is its nonce and its token.
   */
  ghost predicate Answers(hist: seq<Entry>, i: int, j: int)
  {
    && 0 <= i < j < |hist|
    && hist[j].Grant? && hist[i].Issued? && hist[i].host == hist[j].host
    && hist[j].proof == Some(Bytes(hist[i].nonce + Utf8(hist[i].token)))
    && hist[j].at <= hist[i].at + NONCE_TTL
    && (forall x | i < x < j :: hist[x].host != hist[j].host)
  }

  ghost predicate EveryGrantAnswers(hist: seq<Entry>)
  {
    forall j | 0 <= j < |hist| && hist[j].Grant? :: exists i :: Answers(hist, i, j)
  }

  /** The challenge that is pending for h is the entry at i, and nothing about h came after it. */
  ghost predicate PendingSince(hist: seq<Entry>, h: Host, p: PendingNonce, i: int)
  {
    && 0 <= i < |hist|
    && hist[i] == Issued(h, p.nonce, p.token, p.expiresAt - NONCE_TTL)
    && (forall x | i < x < |hist| :: hist[x].host != h)
  }

  ghost predicate NoncesOk(w: World)
  {
    forall h | h in w.s.nonces :: exists i :: PendingSince(w.hist, h, w.s.nonces[h], i)
  }

  /** What a request does to the nonce table. */
  lemma NoncesAfter(matches: Matcher, s: Server, i: Input)
    ensures var (s', r) := Handle(matches, s, i);
            && (r.Challenge? ==>
                  s'.nonces == s.nonces[i.req.host := PendingNonce(i.nonce, i.req.token, i.now + NONCE_TTL)])
            && (r.Granted? ==> s'.nonces == s.nonces - {i.req.host} && i.req.host in s.nonces
                               && i.now <= s.nonces[i.req.host].expiresAt)
            && (r.Refused? ==> s'.nonces == s.nonces || s'.nonces == s.nonces - {i.req.host})
  {
  }

  lemma {:induction false} PendingStays(hist: seq<Entry>, e: Entry, h: Host, p: PendingNonce, i: int)
    requires PendingSince(hist, h, p, i) && e.host != h
    ensures PendingSince(hist + [e], h, p, i)
  {
    var longer := hist + [e];
    assert longer[i] == hist[i];
    forall x | i < x < |longer| ensures longer[x].host != h {
      if x < |hist| {
        assert longer[x] == hist[x];
      }
    }
  }

  lemma AnswersStays(hist: seq<Entry>, more: seq<Entry>, i: int, j: int)
    requires Answers(hist, i, j)
    ensures Answers(hist + more, i, j)
  {
    forall x | i < x < j ensures (hist + more)[x].host != (hist + more)[j].host {
      assert (hist + more)[x] == hist[x];
    }
  }

  lemma EnrollKeepsNonces(matches: Matcher, w: World, i: Input)
    requires NoncesOk(w)
    ensures NoncesOk(Do(matches, w, Enroll(i)))
  {
    var (s', r) := Handle(matches, w.s, i);
    var w' := Do(matches, w, Enroll(i));
    var rec := Record(w.s, i, r);
    NoncesAfter(matches, w.s, i);
    forall h | h in w'.s.nonces ensures exists x :: PendingSince(w'.hist, h, w'.s.nonces[h], x) {
      if r.Challenge? && h == i.req.host {
        assert PendingSince(w'.hist, h, w'.s.nonces[h], |w.hist|);
      } else {
        assert h in w.s.nonces && w'.s.nonces[h] == w.s.nonces[h];
        var x :| PendingSince(w.hist, h, w.s.nonces[h], x);
        if rec == [] {
          assert w'.hist == w.hist;
        } else {
          PendingStays(w.hist, rec[0], h, w.s.nonces[h], x);
        }
        assert PendingSince(w'.hist, h, w'.s.nonces[h], x);
      }
    }
  }

  lemma EnrollKeepsAnswers(matches: Matcher, w: World, i: Input)
    requires NoncesOk(w) && EveryGrantAnswers(w.hist)
    ensures EveryGrantAnswers(Do(matches, w, Enroll(i)).hist)
  {
    var (s', r) := Handle(matches, w.s, i);
    var rec := Record(w.s, i, r);
    var hist := w.hist + rec;
    NoncesAfter(matches, w.s, i);
    forall j | 0 <= j < |hist| && hist[j].Grant? ensures exists x :: Answers(hist, x, j) {
      if j < |w.hist| {
        assert hist[j] == w.hist[j];
        var x :| Answers(w.hist, x, j);
        AnswersStays(w.hist, rec, x, j);
      } else {
        var h := i.req.host;
        GrantNeedsNonce(matches, w.s, i);
        var x :| PendingSince(w.hist, h, w.s.nonces[h], x);
        assert hist[x] == w.hist[x];
        assert Answers(hist, x, j);
      }
    }
  }

  lemma {:induction false} RunKeepsAnswers(matches: Matcher, w: World, ops: seq<Op>)
    requires NoncesOk(w) && EveryGrantAnswers(w.hist)
    ensures NoncesOk(Run(matches, w, ops)) && EveryGrantAnswers(Run(matches, w, ops).hist)
    decreases |ops|
  {
    if ops != [] {
      if ops[0].Enroll? {
        EnrollKeepsNonces(matches, w, ops[0].i);
        EnrollKeepsAnswers(matches, w, ops[0].i);
      }
      RunKeepsAnswers(matches, Do(matches, w, ops[0]), ops[1..]);
    }
  }

  /**
   Every grant answers the latest challenge issued to its host: its response decrypted to the nonce and
   the token of that challenge, within the nonce's lifetime; and no challenge is answered by two grants.
   */
  lemma GrantsAnswerChallenges(matches: Matcher, w: World, ops: seq<Op>)
    requires Fresh(w)
    ensures var hist := Run(matches, w, ops).hist;
            && EveryGrantAnswers(hist)
            && (forall i, j, j' :: Answers(hist, i, j) && Answers(hist, i, j') ==> j == j')
  {
    RunKeepsAnswers(matches, w, ops);
  }

  /**
   The use is counted on the token named in phase 2; that is the token the challenge was issued for
   if and only if the two requests name the same one.
   */
  lemma ChargedTokenIff(matches: Matcher, w: World, i: Input)
    requires UsesOk(w) && i.req.host in w.s.nonces && Sha256(w.s.nonces[i.req.host].token) in w.s.db.tokens
    requires Handle(matches, w.s, i).1.Granted?
    ensures var hash := Sha256(w.s.nonces[i.req.host].token);
            var s' := Handle(matches, w.s, i).0;
            && hash in s'.db.tokens
            && (s'.db.tokens[hash].useCount == w.s.db.tokens[hash].useCount + 1
                <==> w.s.nonces[i.req.host].token == i.req.token)
  {
    TokensAfter(matches, w.s, i);
    var hash, named := Sha256(w.s.nonces[i.req.host].token), Sha256(i.req.token);
    assert w.s.db.tokens[hash].id == w.s.db.tokens[named].id ==> hash == named;
  }

  // ---- What is not atomic ----

  /**
   Validation and use are two store calls. Two phase-2 requests that were both validated before
   either was counted are both granted, so a one-shot token is then used twice.
   */
  lemma ValidatedTogetherGrantedTwice(matches: Matcher, s: Server, i: Input, j: Input, tok: TokenRow)
    requires s.key.Some? && i.fault == NoFault && j.fault == NoFault && i.req.host != j.req.host
    requires Validate(matches, s, i.req.token, i.req.host, i.now) == Ok(tok)
    requires Validate(matches, s, j.req.token, j.req.host, j.now) == Ok(tok)
    requires i.req.pem.PublicKey? && j.req.pem.PublicKey? && i.req.response.Some? && j.req.response.Some?
    requires var p := LiveNonce(s, i.req.host, i.now);
             p.Some? && CheckResponse(s.key.value, p.value, i.req.response.value).None?
    requires var p := LiveNonce(s, j.req.host, j.now);
             p.Some? && CheckResponse(s.key.value, p.value, j.req.response.value).None?
    ensures var (s1, r1) := Proceed(s, tok, i);
            var (s2, r2) := Proceed(s1, tok, j);
            r1.Granted? && r2.Granted? && s2.db.tokens[Sha256(i.req.token)].useCount == tok.useCount + 2
    ensures !tok.reusable ==> Handle(matches, Proceed(s, tok, i).0, j).1.Refused?
  {
    assert s.db.tokens[Sha256(i.req.token)].id == tok.id;
    var s1 := Proceed(s, tok, i).0;
    assert s1.db.tokens[Sha256(i.req.token)].id == tok.id;
    assert s1.db.tokens[Sha256(j.req.token)].useCount == tok.useCount + 1;
  }
}
