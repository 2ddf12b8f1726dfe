/**
 How long an agent that has caught up stays accepted, restarts and failing writes included, and the runs
 of module Rekey in which a rotation meets a connection half-way.
 */
module RekeyRuns {
  import opened Base
  import opened Crypto
  import opened KeyRotation
  import opened Rekey

  // ---- Staying caught up: exactly when ----

  /** Everything on its way to the agent carries the current secret. */
  predicate NothingStale(w: World)
  {
    && (forall i | 0 <= i < |w.inbox| :: SignedWith(w, w.inbox[i], w.keys.current))
    && (forall s | s in w.drawn :: s == w.keys.current)
  }

  /** The row jwt_secret_current holds the secret of memory. */
  predicate RowCurrent(w: World)
  {
    w.cfg.jwtCurrent == w.keys.current
  }

  /** The agent's token, everything on its way to it and the row are of the current secret. */
  predicate Settled(w: World)
  {
    CaughtUp(w) && NothingStale(w) && RowCurrent(w)
  }

  /** Neither the start of a rotation nor a token from a request that came in before one. */
  predicate Harmless(w: World, op: Op)
  {
    !op.RotateStore? && (op.ReEnroll? ==> op.secret == w.keys.current)
  }

  lemma DeliverKeeps(w: World, secret: string, jti: string, now: int)
    requires NothingStale(w) && secret == w.keys.current
    ensures NothingStale(Deliver(w, RekeyMessage(w, secret, jti, now)))
  {
  }

  lemma HarmlessRotation(w: World, op: Op)
    requires Inv(w) && Settled(w) && RotationOp(op) && !op.RotateStore?
    ensures Settled(Do(w, op)) && Do(w, op).keys == w.keys
  {
    match op
    case RotateSend(now, jti) => DeliverKeeps(w, w.keys.current, jti, now);
    case _ =>
  }

  lemma HarmlessConnection(w: World, op: Op)
    requires Inv(w) && Settled(w) && Harmless(w, op) && !RotationOp(op) && !op.RestartServer?
    ensures Settled(Do(w, op)) && Do(w, op).keys == w.keys
  {
    match op
    case SendRekey(i, now, jti) =>
      if i < |w.drawn| {
        assert w.drawn[i] in w.drawn;
        DeliverKeeps(w, w.drawn[i], jti, now);
        assert forall s | s in Without(w.drawn, i) :: s in w.drawn;
      }
    case ReadRekey =>
      if w.inbox != [] {
        assert SignedWith(w, w.inbox[0], w.keys.current);
      }
    case _ =>
  }

  lemma HarmlessStep(w: World, op: Op)
    requires Inv(w) && Settled(w) && Harmless(w, op)
    ensures Settled(Do(w, op)) && Do(w, op).keys.current == w.keys.current
  {
    if op.RestartServer? {
      RestartKeepsRows(w, op.env, op.generated);
    } else if RotationOp(op) {
      HarmlessRotation(w, op);
    } else {
      HarmlessConnection(w, op);
    }
  }

  lemma {:induction false} HarmlessRun(w: World, ops: seq<Op>)
    requires Inv(w) && Settled(w) && forall op | op in ops :: Harmless(w, op)
    ensures var w' := Run(w, ops);
            Inv(w') && Settled(w') && w'.keys.current == w.keys.current
    decreases |ops|
  {
    if ops != [] {
      var mid, last := Run(w, ops[..|ops| - 1]), ops[|ops| - 1];
      HarmlessRun(w, ops[..|ops| - 1]);
      assert Harmless(w, last);
      OpKeepsInv(mid, last);
      HarmlessStep(mid, last);
    }
  }

  /** A stale message that has arrived is read. */
  lemma ArrivedUndoes(w: World, i: nat)
    requires Inv(w) && i < |w.inbox| && !SignedWith(w, w.inbox[i], w.keys.current)
    ensures (forall op | op in Reads(i + 1) :: Harmless(w, op)) && !CaughtUp(Run(w, Reads(i + 1)))
  {
    assert ForAgent(w, w.inbox[i]);
    AfterReads(w, i + 1);
    ReadsAreReads(i + 1);
  }

  /** One still to be sent is sent after a reconnection, and read. */
  lemma DrawnUndoes(w: World, i: nat) returns (ops: seq<Op>)
    requires Inv(w) && CaughtUp(w) && i < |w.drawn| && w.drawn[i] != w.keys.current
    ensures (forall op | op in ops :: Harmless(w, op)) && !CaughtUp(Run(w, ops))
  {
    var now := w.jwt.exp * SECOND - 1;
    ops := [Validate(now), Register, SendRekey(i, now, ""), ReadRekey];
    FourSteps(w, ops);
    var w1 := Do(w, ops[0]);
    ValidatedIs(w, now);
    var w2 := Do(w1, ops[1]);
    assert Do(w2, ops[2]).inbox == [RekeyMessage(w2, w.drawn[i], "", now)];
  }

  /** A row that holds another secret is read at the next start. */
  lemma RestartUndoes(w: World)
    requires Inv(w) && CaughtUp(w) && !RowCurrent(w)
    ensures !CaughtUp(Run(w, [RestartServer("", 0)]))
  {
    RestartKeepsRows(w, "", 0);
    assert Run(w, [RestartServer("", 0)]) == Do(Run(w, []), RestartServer("", 0)) by {
      assert [RestartServer("", 0)][..0] == [];
    }
  }

  lemma {:induction false} ReadsAreReads(n: nat)
    ensures forall op | op in Reads(n) :: op == ReadRekey
  {
    if n > 0 {
      ReadsAreReads(n - 1);
    }
  }

  lemma FourSteps(w: World, ops: seq<Op>)
    requires |ops| == 4
    ensures Run(w, ops) == Do(Do(Do(Do(w, ops[0]), ops[1]), ops[2]), ops[3])
  {
    var three, two, one := ops[..3], ops[..2], ops[..1];
    assert three[..2] == two && two[..1] == one && one[..0] == [];
    assert Run(w, one) == Do(Run(w, one[..0]), ops[0]);
    assert Run(w, two) == Do(Run(w, two[..1]), ops[1]);
    assert Run(w, three) == Do(Run(w, three[..2]), ops[2]);
  }

  lemma UnsettledUndoes(w: World) returns (ops: seq<Op>)
    requires Inv(w) && CaughtUp(w) && !Settled(w)
    ensures (forall op | op in ops :: Harmless(w, op)) && !CaughtUp(Run(w, ops))
  {
    if !RowCurrent(w) {
      RestartUndoes(w);
      ops := [RestartServer("", 0)];
    } else if i :| 0 <= i < |w.inbox| && !SignedWith(w, w.inbox[i], w.keys.current) {
      ArrivedUndoes(w, i);
      ops := Reads(i + 1);
    } else {
      var i :| 0 <= i < |w.drawn| && w.drawn[i] != w.keys.current;
      ops := DrawnUndoes(w, i);
    }
  }

  /**
   A caught-up agent stays caught up over every run in which no rotation starts, restarts and failing
   writes among its steps, if and only if nothing on its way to it is stale and the row
   jwt_secret_current holds the current secret.
   */
  lemma StaysCaughtUpIff(w: World)
    requires Inv(w) && CaughtUp(w)
    ensures NothingStale(w) && RowCurrent(w)
            <==> forall ops | (forall op | op in ops :: Harmless(w, op)) :: CaughtUp(Run(w, ops))
  {
    if Settled(w) {
      forall ops: seq<Op> | forall op | op in ops :: Harmless(w, op) ensures CaughtUp(Run(w, ops)) {
        HarmlessRun(w, ops);
      }
    } else {
      var ops := UnsettledUndoes(w);
    }
  }

  /** The token the agent holds is accepted with the current secret until it expires. */
  ghost predicate AcceptedUntilExpiry(w: World)
  {
    forall now :: ValidateDualKey(w.keys, w.jwt, now) == Accepted(false) <==> now < w.jwt.exp * SECOND
  }

  lemma CaughtUpIsAccepted(w: World)
    requires Inv(w)
    ensures AcceptedUntilExpiry(w) <==> CaughtUp(w)
    ensures CaughtUp(w) ==> forall now :: ValidateDualKey(w.keys, w.jwt, now) != Accepted(true)
  {
    if !CaughtUp(w) {
      assert ValidateDualKey(w.keys, w.jwt, w.jwt.exp * SECOND - 1) != Accepted(false);
    }
  }

  /**
   After any run from enrollment, an agent that has caught up is accepted with the current secret on
   every later connection until its token expires, over every run up to the next rotation, even past the
   grace deadline and across server restarts, if and only if nothing stale is on its way and the row
   jwt_secret_current holds the current secret.
   */
  lemma RekeyedAgentStaysAcceptedIff(start: World, jti: string, at: int, before: seq<Op>)
    requires Enrolled(start, jti, at) && FreshRotations(start, before) && CaughtUp(Run(start, before))
    ensures var w := Run(start, before);
            NothingStale(w) && RowCurrent(w)
            <==> forall after | (forall op | op in after :: Harmless(w, op)) :: AcceptedUntilExpiry(Run(w, after))
  {
    RunKeepsInv(start, before);
    var w := Run(start, before);
    if Settled(w) {
      forall after: seq<Op> | forall op | op in after :: Harmless(w, op) ensures AcceptedUntilExpiry(Run(w, after)) {
        HarmlessRun(w, after);
        CaughtUpIsAccepted(Run(w, after));
      }
    } else {
      var after := UnsettledUndoes(w);
      HarmlessKeepsInv(w, after);
      CaughtUpIsAccepted(Run(w, after));
    }
  }

  lemma {:induction false} HarmlessKeepsInv(w: World, ops: seq<Op>)
    requires Inv(w) && forall op | op in ops :: Harmless(w, op)
    ensures Inv(Run(w, ops))
    decreases |ops|
  {
    if ops != [] {
      HarmlessKeepsInv(w, ops[..|ops| - 1]);
      assert Harmless(w, ops[|ops| - 1]);
      OpKeepsInv(Run(w, ops[..|ops| - 1]), ops[|ops| - 1]);
    }
  }

  // ---- Restarts ----

  /** The unexpired token of a caught-up agent after a restart: accepted if the row is current, refused if not. */
  lemma RestartAcceptsIff(w: World, env: string, generated: Key, now: int)
    requires Inv(w) && CaughtUp(w) && now < w.jwt.exp * SECOND
    ensures var w' := Do(w, RestartServer(env, generated));
            ValidateDualKey(w'.keys, w'.jwt, now) == if RowCurrent(w) then Accepted(false) else Rejected
  {
    RestartKeepsRows(w, env, generated);
  }

  /** The writes of a rotation, with what becomes of each. */
  function Writes(w: World, oks: seq<bool>): World
    decreases |oks|
  {
    if oks == [] then w else Do(Writes(w, oks[..|oks| - 1]), RotateWrite(oks[|oks| - 1]))
  }

  /** They are the writes of KeyRotation. */
  lemma {:induction false} WritesAreWritten(w: World, oks: seq<bool>)
    requires RowsOk(w) && w.rotation.Writing? && w.rotation.n == 0 && |oks| <= WRITES
    ensures var done := (i: nat) => i < |oks| && oks[i];
            Writes(w, oks) == w.(rotation := Writing(w.rotation.before, |oks|),
                                 cfg := Written(w.cfg, w.rotation.before, w.keys, w.master, done, |oks|))
    decreases |oks|
  {
    if oks != [] {
      var front := oks[..|oks| - 1];
      WritesAreWritten(w, front);
      var done := (i: nat) => i < |oks| && oks[i];
      var less := (i: nat) => i < |front| && front[i];
      SameWritten(w.cfg, w.rotation.before, w.keys, w.master, less, done, |front|);
    }
  }

  lemma {:induction false} SameWritten(
      cfg: Config, k: Keys, k': Keys, master: Option<string>, a: nat -> bool, b: nat -> bool, n: nat)
    requires k'.deadline.Some? && k'.rsa.Some? && forall i: nat | i < n :: a(i) == b(i)
    ensures Written(cfg, k, k', master, a, n) == Written(cfg, k, k', master, b, n)
    decreases n
  {
    if n > 0 {
      SameWritten(cfg, k, k', master, a, b, n - 1);
    }
  }

  // ---- The runs in question ----

  lemma ValidatedIs(w: World, now: int)
    requires Inv(w) && ValidateDualKey(w.keys, w.jwt, now).Accepted?
    ensures var v := Do(w, Validate(now));
            && v.conn == Validated(ValidateDualKey(w.keys, w.jwt, now).usedPrevious)
            && v == w.(conn := v.conn, inbox := [], entry := if w.entry == Mine then Earlier else w.entry,
                       stale := v.stale, late := v.late)
  {
  }

  /** A connection with the previous secret whose RekeyAgent has copied the current one. */
  function Drawn(w: World, now: int): World
  {
    Do(Do(Do(w, Validate(now)), Register), DrawSecret)
  }

  lemma DrawnIs(w: World, now: int)
    requires Inv(w) && Quiet(w) && ValidateDualKey(w.keys, w.jwt, now) == Accepted(true)
    ensures var w' := Drawn(w, now);
            w' == w.(conn := Online, entry := Mine, inbox := [], drawn := [w.keys.current],
                     stale := w'.stale, late := w'.late)
  {
    ValidatedIs(w, now);
  }

  /** Nobody else about: an agent let in with the previous secret is rekeyed with the current one. */
  lemma GraceConnectionRekeys(w: World, now: int, jti: string)
    requires Inv(w) && Quiet(w) && ValidateDualKey(w.keys, w.jwt, now) == Accepted(true)
    ensures var w' := Do(Do(Drawn(w, now), SendRekey(0, now, jti)), ReadRekey);
            w'.conn == Online && CaughtUp(w') && w'.jwt == Sign(w.keys.current, w.host, jti, now, RekeyTtl(w.ttl))
  {
    DrawnIs(w, now);
    var drawn := Drawn(w, now);
    assert Do(drawn, SendRekey(0, now, jti)).inbox == [RekeyMessage(drawn, w.keys.current, jti, now)];
  }

  /** A rotation from storing to listing, its writes going as they may. */
  function StoredAndListed(w: World, rotation: Op, oks: seq<bool>): World
    requires rotation.RotateStore?
  {
    Do(Writes(Do(w, rotation), oks), RotateList)
  }

  lemma StoredAndListedIs(w: World, rotation: Op, oks: seq<bool>)
    requires RowsOk(w) && rotation.RotateStore? && NewSecret(w, rotation.secret) && w.rotation.Idle? && |oks| == WRITES
    ensures var w' := StoredAndListed(w, rotation, oks);
            && w'.keys.current == rotation.secret
            && w' == w.(keys := w'.keys, cfg := w'.cfg, rotation := if w.entry == Nobody then Idle else Listed)
            && w'.cfg.jwtCurrent == (if oks[1] then rotation.secret else w.cfg.jwtCurrent)
  {
    var w1 := Do(w, rotation);
    var done := (i: nat) => i < |oks| && oks[i];
    WritesAreWritten(w1, oks);
    WrittenAll(w.cfg, w.keys, w1.keys, w.master, done);
  }

  /** One rotation, from storing to sending. */
  function Rotated(w: World, rotation: Op, oks: seq<bool>, jti: string): World
    requires rotation.RotateStore?
  {
    Do(StoredAndListed(w, rotation, oks), RotateSend(rotation.now, jti))
  }

  lemma RotatedIs(w: World, rotation: Op, oks: seq<bool>, jti: string)
    requires RowsOk(w) && rotation.RotateStore? && NewSecret(w, rotation.secret) && w.rotation.Idle? && |oks| == WRITES
    ensures var w' := Rotated(w, rotation, oks, jti);
            && w'.keys.current == rotation.secret
            && w' == w.(keys := w'.keys, cfg := w'.cfg,
                        inbox := if w.entry == Mine
                                 then w.inbox + [RekeyMessage(w, rotation.secret, jti, rotation.now)]
                                 else w.inbox)
            && w'.cfg.jwtCurrent == (if oks[1] then rotation.secret else w.cfg.jwtCurrent)
  {
    StoredAndListedIs(w, rotation, oks);
  }

  /**
   A rotation whose write of jwt_secret_current fails, which is only logged: the agent reads its rekey and
   is caught up, and after a restart it is refused at every time.
   */
  lemma LostWriteRefuses(w: World, rotation: Op, oks: seq<bool>, jti: string, env: string, generated: Key, now: int)
    requires Inv(w) && Quiet(w) && w.entry == Mine && w.inbox == []
    requires rotation.RotateStore? && NewSecret(w, rotation.secret) && |oks| == WRITES && !oks[1]
    ensures var w' := Do(Rotated(w, rotation, oks, jti), ReadRekey);
            && CaughtUp(w') && NothingStale(w')
            && ValidateDualKey(Do(w', RestartServer(env, generated)).keys, w'.jwt, now) == Rejected
  {
    RotatedIs(w, rotation, oks, jti);
    var sent := Rotated(w, rotation, oks, jti);
    assert sent.inbox == [RekeyMessage(w, rotation.secret, jti, rotation.now)];
    RotationKeepsInv(w, rotation, oks, jti);
    OpKeepsInv(sent, ReadRekey);
    var w' := Do(sent, ReadRekey);
    if now < w'.jwt.exp * SECOND {
      RestartAcceptsIff(w', env, generated, now);
    }
  }

  lemma RotationKeepsInv(w: World, rotation: Op, oks: seq<bool>, jti: string)
    requires Inv(w) && rotation.RotateStore? && NewSecret(w, rotation.secret)
    ensures Inv(Rotated(w, rotation, oks, jti))
  {
    OpKeepsInv(w, rotation);
    WritesKeepInv(Do(w, rotation), oks);
    var written := Writes(Do(w, rotation), oks);
    OpKeepsInv(written, RotateList);
    OpKeepsInv(Do(written, RotateList), RotateSend(rotation.now, jti));
  }

  lemma {:induction false} WritesKeepInv(w: World, oks: seq<bool>)
    requires Inv(w)
    ensures Inv(Writes(w, oks))
    decreases |oks|
  {
    if oks != [] {
      WritesKeepInv(w, oks[..|oks| - 1]);
      OpKeepsInv(Writes(w, oks[..|oks| - 1]), RotateWrite(oks[|oks| - 1]));
    }
  }

  /** The connection of StaleRekey when both have sent. */
  lemma StaleInbox(w: World, now: int, jti: string, rotation: Op, oks: seq<bool>)
    requires Inv(w) && Quiet(w) && ValidateDualKey(w.keys, w.jwt, now) == Accepted(true)
    requires rotation.RotateStore? && NewSecret(w, rotation.secret) && |oks| == WRITES
    ensures var w' := Do(Rotated(Drawn(w, now), rotation, oks, jti), SendRekey(0, now, jti));
            && w'.conn == Online && Quiet(w') && w'.keys.current == rotation.secret && w'.agentKey == w.agentKey
            && w'.inbox == [RekeyMessage(w, rotation.secret, jti, rotation.now),
                            RekeyMessage(w, w.keys.current, jti, now)]
  {
    DrawnIs(w, now);
    RotatedIs(Drawn(w, now), rotation, oks, jti);
  }

  /**
   A whole rotation between a RekeyAgent's copying of the secret and its sending: the rotation's message
   comes first, the older one after it. Having read the first the agent is caught up, having read both
   it is not, and nobody is going to send anything more.
   */
  lemma StaleRekey(w: World, now: int, jti: string, rotation: Op, oks: seq<bool>)
    requires Inv(w) && Quiet(w) && ValidateDualKey(w.keys, w.jwt, now) == Accepted(true)
    requires rotation.RotateStore? && NewSecret(w, rotation.secret) && |oks| == WRITES
    ensures var w' := Do(Rotated(Drawn(w, now), rotation, oks, jti), SendRekey(0, now, jti));
            && w'.conn == Online && Quiet(w') && |w'.inbox| == 2
            && CaughtUp(Do(w', ReadRekey))
            && !CaughtUp(Do(Do(w', ReadRekey), ReadRekey)) && Do(Do(w', ReadRekey), ReadRekey).inbox == []
  {
    StaleInbox(w, now, jti, rotation, oks);
    TwoReads(Do(Rotated(Drawn(w, now), rotation, oks, jti), SendRekey(0, now, jti)),
             RekeyMessage(w, rotation.secret, jti, rotation.now), RekeyMessage(w, w.keys.current, jti, now));
  }

  lemma TwoReads(w: World, first: Cipher, second: Cipher)
    requires w.inbox == [first, second] && ForAgent(w, first) && ForAgent(w, second)
    ensures Do(w, ReadRekey).jwt == first.plain.jwt
    ensures Do(w, ReadRekey).keys == w.keys
    ensures Do(Do(w, ReadRekey), ReadRekey) == w.(jwt := second.plain.jwt, inbox := [])
  {
  }

  /** A connection is registered, and rekeyed if that is due. */
  lemma RegisteredIs(v: World, now: int, jti: string)
    requires Quiet(v) && v.conn.Validated? && v.inbox == [] && v.jwt.secret != v.keys.current
    ensures var w' := Do(Do(Do(v, Register), DrawSecret), SendRekey(0, now, jti));
            && w'.conn == Online && Quiet(w') && (CaughtUp(Do(w', ReadRekey)) <==> v.conn.usedPrevious)
  {
    var reg := Do(v, Register);
    var w' := Do(Do(reg, DrawSecret), SendRekey(0, now, jti));
    if v.conn.usedPrevious {
      assert Do(reg, DrawSecret).drawn == [v.keys.current];
      assert w'.inbox == [RekeyMessage(reg, v.keys.current, jti, now)];
    } else {
      assert w' == reg;
    }
  }

  /** A connection validated before a rotation, registered after it has sent, and rekeyed if that is due. */
  lemma RegisteredAfter(v: World, now: int, jti: string, rotation: Op, oks: seq<bool>)
    requires RowsOk(v) && Quiet(v) && rotation.RotateStore? && NewSecret(v, rotation.secret) && |oks| == WRITES
    requires v.conn.Validated? && v.entry != Mine && v.inbox == []
    ensures var w' := Do(Do(Do(Rotated(v, rotation, oks, jti), Register), DrawSecret), SendRekey(0, now, jti));
            && w'.conn == Online && Quiet(w') && (CaughtUp(Do(w', ReadRekey)) <==> v.conn.usedPrevious)
  {
    RotatedIs(v, rotation, oks, jti);
    RegisteredIs(Rotated(v, rotation, oks, jti), now, jti);
  }

  /**
   A rotation that falls between the validation and the registration of a connection is made up for if
   and only if the agent had used the previous secret: one that came with the then current secret is
   connected and never told of the new one.
   */
  lemma RotationDuringConnectIff(w: World, now: int, jti: string, rotation: Op, oks: seq<bool>)
    requires Inv(w) && Quiet(w) && rotation.RotateStore? && NewSecret(w, rotation.secret) && |oks| == WRITES
    requires ValidateDualKey(w.keys, w.jwt, now).Accepted?
    ensures var mid := Rotated(Do(w, Validate(now)), rotation, oks, jti);
            var w' := Do(Do(Do(mid, Register), DrawSecret), SendRekey(0, now, jti));
            && w'.conn == Online && Quiet(w')
            && (CaughtUp(Do(w', ReadRekey)) <==> ValidateDualKey(w.keys, w.jwt, now) == Accepted(true))
  {
    ValidatedIs(w, now);
    RegisteredAfter(Do(w, Validate(now)), now, jti, rotation, oks);
  }

  lemma RegisteredBetween(v: World, now: int, jti: string, rotation: Op, oks: seq<bool>)
    requires RowsOk(v) && Quiet(v) && rotation.RotateStore? && NewSecret(v, rotation.secret) && |oks| == WRITES
    requires v.conn == Validated(false) && v.entry != Mine && v.inbox == []
    ensures var w' := Do(Do(StoredAndListed(v, rotation, oks), Register), RotateSend(rotation.now, jti));
            && w'.conn == Online && Quiet(w') && (CaughtUp(Do(w', ReadRekey)) <==> v.entry != Nobody)
  {
    StoredAndListedIs(v, rotation, oks);
    var reg := Do(StoredAndListed(v, rotation, oks), Register);
    if v.entry != Nobody {
      assert Do(reg, RotateSend(rotation.now, jti)).inbox == [RekeyMessage(reg, rotation.secret, jti, rotation.now)];
    }
  }

  /**
   The same rotation, but sending only after the registration: it reaches the agent if and only if it
   found an entry to list, and the one of the connection that is being replaced will do.
   */
  lemma ListedBeforeRegisterIff(w: World, now: int, jti: string, rotation: Op, oks: seq<bool>)
    requires Inv(w) && Quiet(w) && rotation.RotateStore? && NewSecret(w, rotation.secret) && |oks| == WRITES
    requires ValidateDualKey(w.keys, w.jwt, now) == Accepted(false)
    ensures var listed := StoredAndListed(Do(w, Validate(now)), rotation, oks);
            var w' := Do(Do(listed, Register), RotateSend(rotation.now, jti));
            && w'.conn == Online && Quiet(w') && (CaughtUp(Do(w', ReadRekey)) <==> w.entry != Nobody)
  {
    ValidatedIs(w, now);
    RegisteredBetween(Do(w, Validate(now)), now, jti, rotation, oks);
  }
}
