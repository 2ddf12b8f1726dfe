/** Whose the tokens are that an agent holds, and how long they live, over every run of module Rekey. */
module RekeyTokens {
  import opened Base
  import opened Crypto
  import opened KeyRotation
  import opened Rekey

  /**
   The token is about the agent's host, has this jti, and is accepted as current under its secret exactly
   until ttl has passed since it was issued, cut down to a whole second.
   */
  ghost predicate Lives(w: World, token: Jwt, at: int, jti: string, ttl: int)
  {
    token.sub == w.host && token.jti == jti && AcceptedBefore(token.secret, token, (at + ttl) / SECOND * SECOND)
  }

  /** The step issues this token; a lifetime of 0 means an hour when rekeying, and is taken as it is when enrolling. */
  ghost predicate Issues(w: World, op: Op, token: Jwt)
  {
    match op
    case RotateSend(now, jti) => Lives(w, token, now, jti, if w.ttl == 0 then HOUR else w.ttl)
    case SendRekey(_, now, jti) => Lives(w, token, now, jti, if w.ttl == 0 then HOUR else w.ttl)
    case ReEnroll(_, now, jti) => Lives(w, token, now, jti, w.ttl)
    case _ => false
  }

  /** The token of the enrollment the run starts from, or one that a step of the run issued. */
  ghost predicate Issued(start: World, jti: string, at: int, ops: seq<Op>, token: Jwt)
  {
    || Lives(start, token, at, jti, start.ttl)
    || (exists k :: 0 <= k < |ops| && Issues(start, ops[k], token))
  }

  lemma IssuedStays(start: World, jti: string, at: int, ops: seq<Op>, token: Jwt)
    requires ops != [] && Issued(start, jti, at, ops[..|ops| - 1], token)
    ensures Issued(start, jti, at, ops, token)
  {
    var front := ops[..|ops| - 1];
    if k :| 0 <= k < |front| && Issues(start, front[k], token) {
      assert Issues(start, ops[k], token);
    }
  }

  /** Host, key and lifetime are the same throughout. */
  predicate SameAgent(w: World, w': World)
  {
    w'.host == w.host && w'.ttl == w.ttl && w'.agentKey == w.agentKey
  }

  lemma SameAgentAfter(w: World, op: Op)
    ensures SameAgent(w, Do(w, op))
  {
  }

  /** What one step adds to the tokens around. */
  ghost predicate NewTokens(w: World, op: Op, w': World)
  {
    && (w'.jwt == w.jwt || (exists i | 0 <= i < |w.inbox| :: HasToken(w.inbox[i], w'.jwt))
        || Issues(w, op, w'.jwt))
    && (forall i | 0 <= i < |w'.inbox| ::
          w'.inbox[i] in w.inbox || forall token | HasToken(w'.inbox[i], token) :: Issues(w, op, token))
  }

  predicate HasToken(c: Cipher, token: Jwt)
  {
    c.Oaep? && c.plain == SignedToken(token)
  }

  lemma MessageLives(w: World, secret: string, jti: string, now: int)
    ensures forall token | HasToken(RekeyMessage(w, secret, jti, now), token) ::
              Lives(w, token, now, jti, if w.ttl == 0 then HOUR else w.ttl)
    ensures RekeyMessage(w, secret, jti, now).key == w.agentKey
  {
    SignedLives(secret, w.host, jti, now, RekeyTtl(w.ttl));
  }

  lemma StepTokens(w: World, op: Op)
    ensures NewTokens(w, op, Do(w, op))
  {
    match op
    case RotateSend(now, jti) => MessageLives(w, w.keys.current, jti, now);
    case SendRekey(i, now, jti) =>
      if i < |w.drawn| {
        MessageLives(w, w.drawn[i], jti, now);
      }
    case ReEnroll(secret, now, jti) => SignedLives(secret, w.host, jti, now, w.ttl);
    case _ =>
  }

  ghost predicate AllIssued(start: World, jti: string, at: int, ops: seq<Op>, w: World)
  {
    && SameAgent(start, w)
    && Issued(start, jti, at, ops, w.jwt)
    && (forall i, token | 0 <= i < |w.inbox| && HasToken(w.inbox[i], token) :: Issued(start, jti, at, ops, token))
  }

  lemma StepIssued(start: World, jti: string, at: int, ops: seq<Op>, w: World)
    requires ops != [] && AllIssued(start, jti, at, ops[..|ops| - 1], w)
    ensures AllIssued(start, jti, at, ops, Do(w, ops[|ops| - 1]))
  {
    var front, last := ops[..|ops| - 1], ops[|ops| - 1];
    var w' := Do(w, last);
    StepTokens(w, last);
    SameAgentAfter(w, last);
    forall token | Issued(start, jti, at, front, token) ensures Issued(start, jti, at, ops, token) {
      IssuedStays(start, jti, at, ops, token);
    }
    forall token | Issues(w, last, token) ensures Issued(start, jti, at, ops, token) {
      assert Issues(start, ops[|ops| - 1], token);
    }
    forall i, token | 0 <= i < |w'.inbox| && HasToken(w'.inbox[i], token)
      ensures Issued(start, jti, at, ops, token)
    {
      if w'.inbox[i] in w.inbox {
        var j :| 0 <= j < |w.inbox| && w.inbox[j] == w'.inbox[i];
      }
    }
  }

  /**
   Over every run from enrollment, rotations, rekeys, reconnections and restarts as they may: the token the
   agent holds is about its own host, and was issued by the enrollment or by a step of the run, since which
   it lives for ttl.
   */
  lemma {:induction false} HeldTokenLives(start: World, jti: string, at: int, ops: seq<Op>)
    requires Enrolled(start, jti, at)
    ensures Issued(start, jti, at, ops, Run(start, ops).jwt)
    ensures AllIssued(start, jti, at, ops, Run(start, ops))
    decreases |ops|
  {
    if ops == [] {
      SignedLives(start.keys.current, start.host, jti, at, start.ttl);
    } else {
      HeldTokenLives(start, jti, at, ops[..|ops| - 1]);
      StepIssued(start, jti, at, ops, Run(start, ops[..|ops| - 1]));
    }
  }

  /** A rekey message has just been put on the agent's connection. */
  ghost predicate JustSent(w: World, w': World, secret: string, jti: string, now: int)
  {
    w'.inbox == w.inbox + [RekeyMessage(w, secret, jti, now)] && SameAgent(w, w')
  }

  lemma SentIsRead(w: World, w': World, secret: string, jti: string, now: int)
    requires Inv(w') && JustSent(w, w', secret, jti, now)
    ensures var token := Run(w', Reads(|w'.inbox|)).jwt;
            token.secret == secret && Lives(w, token, now, jti, if w.ttl == 0 then HOUR else w.ttl)
  {
    AfterReads(w', |w'.inbox|);
    MessageLives(w, secret, jti, now);
    assert HasToken(w'.inbox[|w'.inbox| - 1], w'.inbox[|w'.inbox| - 1].plain.jwt);
  }

  /**
   A connected agent that reads up to the message a rotation or a RekeyAgent has just sent it holds a token
   of the secret that was sent, about its host, alive until ttl after the sending, or an hour for a ttl of 0.
   */
  lemma RekeyedTokenLives(w: World, op: Op)
    requires Inv(w) && w.entry == Mine
    requires (op.RotateSend? && w.rotation.Listed?) || (op.SendRekey? && op.i < |w.drawn|)
    ensures var w' := Do(w, op);
            var token := Run(w', Reads(|w'.inbox|)).jwt;
            && token.secret == (if op.RotateSend? then w.keys.current else w.drawn[op.i])
            && token.sub == w.host && token.jti == op.jti
            && AcceptedBefore(token.secret, token, (op.now + (if w.ttl == 0 then HOUR else w.ttl)) / SECOND * SECOND)
  {
    OpKeepsInv(w, op);
    SentIsRead(w, Do(w, op), if op.RotateSend? then w.keys.current else w.drawn[op.i], op.jti, op.now);
  }
}
