/**
 How an agent catches up with rotations: AdminRotateKeys and RekeyAgent (handlers/security.go), the
 connection handler that calls RekeyAgent (AgentHandler in ws/handler.go), and the agent's rekey case
 (the agent's ws/dispatcher.go).

 Each of them is several steps, and between two steps of one any steps of the others may happen. A
 rotation changes memory, writes five rows of which any may fail, takes the list of connected hosts,
 then sends. RekeyAgent copies the secret, then signs and sends through whatever entry the host has by
 then. A connection is validated, then registered; when it is gone its entry stays until its handler
 notices. Rotations are serialised: one starts when the one before has sent. The server may stop at any
 time and start again from the rows.
 */
module Rekey {
  import opened Base
  import opened Crypto
  import opened KeyRotation

  /** The agent's connection, the handler of which is before or after RegisterConnection. */
  datatype Conn = Offline | Validated(usedPrevious: bool) | Online

  /** wsConnections[host]: none, one whose connection is gone, or the agent's connection. */
  datatype Entry = Nobody | Earlier | Mine

  /** A rotation: its first n row writes are over; or it has this host in its list and will send. */
  datatype Rotation = Idle | Writing(before: Keys, n: nat) | Listed

  datatype World = World(
    keys: Keys, cfg: Config, master: Option<string>, ttl: int,
    host: Host, agentKey: Key,   // the agents row holds the matching public key
    jwt: Jwt,
    conn: Conn,
    inbox: seq<Cipher>,          // rekey messages on the connection that the agent has not read yet
    entry: Entry,
    stale: nat,                  // handlers of connections that are gone, before UnregisterConnection
    late: seq<bool>,             // the same before RegisterConnection, with their usedPrevious
    rotation: Rotation,
    due: nat,                    // handlers that are about to call RekeyAgent
    drawn: seq<string>)          // RekeyAgents that have copied a secret and not sent yet

  datatype Op =
    | RotateStore(secret: string, rsa: Key, now: int, grace: int)
    | RotateWrite(ok: bool)
    | RotateList
    | RotateSend(now: int, jti: string)
    | Validate(now: int)
    | Register
    | LateRegister(i: nat)       // the handler of a connection that is gone registers it
    | StaleExit                  // the handler of a connection that is gone unregisters the host
    | DrawSecret
    | SendRekey(i: nat, now: int, jti: string)
    | ReadRekey
    | Disconnect
    | ReEnroll(secret: string, now: int, jti: string)   // secret: the one the server had when the request came in
    | RestartServer(env: string, generated: Key)

  const HOUR: int := 3600 * SECOND

  /** signAgentJWT: no lifetime means an hour. Enrollment has no such default. */
  function RekeyTtl(ttl: int): int
  {
    if ttl == 0 then HOUR else ttl
  }

  /** sendRekeyToAgent: a new token under the given secret, for the agent's key. */
  function RekeyMessage(w: World, secret: string, jti: string, now: int): Cipher
  {
    Oaep(w.agentKey, SignedToken(Sign(secret, w.host, jti, now, RekeyTtl(w.ttl))))
  }

  /** SendToAgent: what is written to a connection that is gone is lost, like what finds no entry. */
  function Deliver(w: World, c: Cipher): World
  {
    if w.entry == Mine then w.(inbox := w.inbox + [c]) else w
  }

  /** The agent gives its connection up, or loses it; the handler has yet to notice. */
  function Left(w: World): World
  {
    match w.conn
    case Offline => w
    case Validated(usedPrevious) => w.(conn := Offline, late := w.late + [usedPrevious])
    case Online =>
      w.(conn := Offline, inbox := [], stale := w.stale + 1,
         entry := if w.entry == Mine then Earlier else w.entry)
  }

  /** RegisterConnection closes the connection whose entry it takes. */
  function Replaced(w: World): World
  {
    if w.entry == Mine then Left(w) else w
  }

  /** The agent's rekey case: a message it cannot decrypt is ignored. */
  function ApplyRekey(w: World, c: Cipher): Jwt
  {
    match Decrypt(w.agentKey, c)
    case Some(SignedToken(jwt)) => jwt
    case _ => w.jwt
  }

  function Without<T>(s: seq<T>, i: nat): seq<T>
    requires i < |s|
  {
    s[..i] + s[i + 1..]
  }

  /** The next ConfigSet call of the rotation; a failure is only logged. */
  function DoWrite(w: World, ok: bool): World
    requires w.rotation.Writing?
  {
    var cfg := if ok && w.keys.deadline.Some? && w.keys.rsa.Some?
               then Write(w.cfg, w.rotation.before, w.keys, w.master, w.rotation.n) else w.cfg;
    w.(cfg := cfg, rotation := Writing(w.rotation.before, w.rotation.n + 1))
  }

  /** InitServerState; without readable rows the server does not come up. */
  function DoRestart(w: World, env: string, generated: Key): World
  {
    var down := w.(conn := Offline, inbox := [], entry := Nobody, stale := 0, late := [],
                   rotation := Idle, due := 0, drawn := []);
    match Load(w.cfg, env, w.master, generated)
    case None => down
    case Some(keys) => down.(keys := keys, cfg := Booted(w.cfg, env, w.master, generated))
  }

  /** The steps of a rotation. */
  function DoRotation(w: World, op: Op): World
  {
    match op
    case RotateStore(secret, rsa, now, grace) =>
      if w.rotation.Idle?
      then w.(keys := KeyRotation.Rotate(w.keys, secret, rsa, now + grace), rotation := Writing(w.keys, 0))
      else w
    case RotateWrite(ok) => if w.rotation.Writing? && w.rotation.n < WRITES then DoWrite(w, ok) else w
    case RotateList =>
      if w.rotation.Writing? && w.rotation.n == WRITES
      then w.(rotation := if w.entry == Nobody then Idle else Listed)
      else w
    case RotateSend(now, jti) =>
      if w.rotation.Listed? then Deliver(w, RekeyMessage(w, w.keys.current, jti, now)).(rotation := Idle) else w
    case _ => w
  }

  /** The steps of connections and of RekeyAgent. */
  function DoConnection(w: World, op: Op): World
  {
    match op
    case Validate(now) =>
      (match ValidateDualKey(w.keys, w.jwt, now)
       case Rejected => Left(w)
       case Accepted(usedPrevious) => Left(w).(conn := Validated(usedPrevious)))
    case Register =>
      if w.conn.Validated?
      then w.(conn := Online, entry := Mine, due := if w.conn.usedPrevious then w.due + 1 else w.due)
      else w
    case LateRegister(i) =>
      if i < |w.late|
      then
        var w' := Replaced(w);
        w'.(entry := Earlier, stale := w'.stale + 1, late := Without(w.late, i),
            due := if w.late[i] then w.due + 1 else w.due)
      else w
    case StaleExit => if w.stale > 0 then w.(stale := w.stale - 1, entry := Nobody) else w
    case DrawSecret => if w.due > 0 then w.(due := w.due - 1, drawn := w.drawn + [w.keys.current]) else w
    case SendRekey(i, now, jti) =>
      if i < |w.drawn|
      then Deliver(w, RekeyMessage(w, w.drawn[i], jti, now)).(drawn := Without(w.drawn, i))
      else w
    case ReadRekey => if w.inbox == [] then w else w.(jwt := ApplyRekey(w, w.inbox[0]), inbox := w.inbox[1..])
    case Disconnect => Left(w)
    case ReEnroll(secret, now, jti) => Left(w).(jwt := Sign(secret, w.host, jti, now, w.ttl))
    case _ => w
  }

  /** An operation that cannot happen now changes nothing. */
  function Do(w: World, op: Op): World
  {
    if op.RestartServer? then DoRestart(w, op.env, op.generated)
    else if RotationOp(op) then DoRotation(w, op)
    else DoConnection(w, op)
  }

  predicate RotationOp(op: Op)
  {
    op.RotateStore? || op.RotateWrite? || op.RotateList? || op.RotateSend?
  }

  function Run(w: World, ops: seq<Op>): World
    decreases |ops|
  {
    if ops == [] then w else Do(Run(w, ops[..|ops| - 1]), ops[|ops| - 1])
  }

  lemma RunSnoc(w: World, ops: seq<Op>, op: Op)
    ensures Run(w, ops + [op]) == Do(Run(w, ops), op)
  {
    assert (ops + [op])[..|ops + [op]| - 1] == ops;
  }

  lemma {:induction false} RunAppend(w: World, a: seq<Op>, b: seq<Op>)
    ensures Run(w, a + b) == Run(Run(w, a), b)
    decreases |b|
  {
    if b == [] {
      assert a + b == a;
    } else {
      assert (a + b)[..|a + b| - 1] == a + b[..|b| - 1];
      RunAppend(w, a, b[..|b| - 1]);
    }
  }

  /** A message for this agent, signed with this secret. */
  predicate SignedWith(w: World, c: Cipher, secret: string)
  {
    c.Oaep? && c.key == w.agentKey && c.plain.SignedToken? && c.plain.jwt.secret == secret && c.plain.jwt.alg == HS256
  }

  predicate ForAgent(w: World, c: Cipher)
  {
    c.Oaep? && c.plain.SignedToken? && SignedWith(w, c, c.plain.jwt.secret)
  }

  /** The agent holds a token signed with the current secret. */
  predicate CaughtUp(w: World)
  {
    w.jwt.secret == w.keys.current && w.jwt.alg == HS256
  }

  /** Every secret in sight: a rotation draws one that is none of them. */
  predicate NewSecret(w: World, secret: string)
  {
    && secret != "" && secret != w.keys.current && secret != w.jwt.secret && secret !in w.drawn
    && secret != w.cfg.jwtCurrent && secret != w.cfg.jwtPrevious
    && (forall i | 0 <= i < |w.inbox| :: !SignedWith(w, w.inbox[i], secret))
  }

  ghost predicate FreshRotations(w: World, ops: seq<Op>)
  {
    forall k | 0 <= k < |ops| && ops[k].RotateStore? :: NewSecret(Run(w, ops[..k]), ops[k].secret)
  }

  // ---- What every step keeps ----

  /**
   The rows can be read, and the current secret of memory is in the previous row only when it is in the
   current one too.
   */
  predicate RowsOk(w: World)
  {
    && w.keys.current != "" && w.cfg.jwtCurrent != ""
    && w.cfg.rsaCurrent.Some? && Unseal(w.master, w.cfg.rsaCurrent.value).Some?
    && (w.cfg.jwtPrevious == w.keys.current ==> w.cfg.jwtCurrent == w.keys.current)
    && (w.rotation.Writing? ==>
          w.keys.deadline.Some? && w.keys.rsa.Some? && w.rotation.before.current != w.keys.current)
  }

  /** All messages are for the agent, and they are on a connection that is there. */
  ghost predicate Inv(w: World)
  {
    && RowsOk(w) && w.jwt.alg == HS256
    && (forall i | 0 <= i < |w.inbox| :: ForAgent(w, w.inbox[i]))
    && (w.conn != Online ==> w.inbox == [])
    && (w.entry == Mine ==> w.conn == Online)
  }

  lemma WriteKeepsRows(w: World, ok: bool)
    requires RowsOk(w) && w.rotation.Writing? && w.rotation.n < WRITES
    ensures RowsOk(DoWrite(w, ok))
  {
    match w.rotation.n
    case 0 =>
    case 1 =>
    case 2 =>
    case 3 =>
    case _ =>
  }

  lemma RestartKeepsRows(w: World, env: string, generated: Key)
    requires RowsOk(w)
    ensures var w' := DoRestart(w, env, generated);
            && RowsOk(w') && w'.cfg == w.cfg
            && w'.keys.current == w.cfg.jwtCurrent && w'.keys.previous == w.cfg.jwtPrevious
  {
  }

  lemma RotationOpKeepsInv(w: World, op: Op)
    requires Inv(w) && RotationOp(op) && (op.RotateStore? ==> NewSecret(w, op.secret))
    ensures Inv(DoRotation(w, op))
  {
    if op.RotateWrite? && w.rotation.Writing? && w.rotation.n < WRITES {
      WriteKeepsRows(w, op.ok);
    }
  }

  lemma ConnectionOpKeepsInv(w: World, op: Op)
    requires Inv(w) && !RotationOp(op) && !op.RestartServer?
    ensures Inv(DoConnection(w, op))
  {
    if op.ReadRekey? && w.inbox != [] {
      assert ForAgent(w, w.inbox[0]);
    }
  }

  lemma OpKeepsInv(w: World, op: Op)
    requires Inv(w) && (op.RotateStore? ==> NewSecret(w, op.secret))
    ensures Inv(Do(w, op))
  {
    if op.RestartServer? {
      RestartKeepsRows(w, op.env, op.generated);
    } else if RotationOp(op) {
      RotationOpKeepsInv(w, op);
    } else {
      ConnectionOpKeepsInv(w, op);
    }
  }

  lemma {:induction false} RunKeepsInv(w: World, ops: seq<Op>)
    requires Inv(w) && FreshRotations(w, ops)
    ensures Inv(Run(w, ops))
    decreases |ops|
  {
    if ops != [] {
      FreshFront(w, ops);
      RunKeepsInv(w, ops[..|ops| - 1]);
      OpKeepsInv(Run(w, ops[..|ops| - 1]), ops[|ops| - 1]);
    }
  }

  lemma FreshFront(w: World, ops: seq<Op>)
    requires FreshRotations(w, ops) && ops != []
    ensures FreshRotations(w, ops[..|ops| - 1])
    ensures ops[|ops| - 1].RotateStore? ==> NewSecret(Run(w, ops[..|ops| - 1]), ops[|ops| - 1].secret)
  {
    var front := ops[..|ops| - 1];
    forall k | 0 <= k < |front| && front[k].RotateStore? ensures NewSecret(Run(w, front[..k]), front[k].secret) {
      assert front[..k] == ops[..k] && front[k] == ops[k];
    }
  }

  /** An agent that has just enrolled with a server that has readable rows. */
  predicate Enrolled(w: World, jti: string, now: int)
  {
    && RowsOk(w) && w.jwt == Sign(w.keys.current, w.host, jti, now, w.ttl)
    && w.conn == Offline && w.inbox == [] && w.entry == Nobody && w.stale == 0 && w.late == []
    && w.rotation == Idle && w.due == 0 && w.drawn == []
  }

  // ---- Catching up: exactly when ----

  /** The secret of the token the agent will hold when it has read its messages. */
  function LatestSecret(w: World): string
  {
    if w.inbox == [] then w.jwt.secret
    else
      match w.inbox[|w.inbox| - 1]
      case Oaep(_, SignedToken(jwt)) => jwt.secret
      case _ => w.jwt.secret
  }

  /** Somebody is still going to send the current secret to a registered connection. */
  predicate Coming(w: World)
  {
    !w.rotation.Idle? || w.due > 0 || w.keys.current in w.drawn
  }

  /** A connected agent has the current secret, or has it in its messages, or will be sent it. */
  predicate OnTrack(w: World)
  {
    w.conn == Online ==> LatestSecret(w) == w.keys.current || (w.entry == Mine && Coming(w))
  }

  /**
   The steps that leave a connected agent behind:
   a RekeyAgent that sends a secret it copied before a rotation, when that rotation has sent already;
   a connection registered with the secret of before a rotation that found no entry to list, having been
   validated as current; the loss of the entry before a message to come; and a rotation after that.
   */
  predicate Slips(w: World, op: Op)
  {
    match op
    case SendRekey(i, _, _) => w.entry == Mine && i < |w.drawn| && w.drawn[i] != w.keys.current && !Coming(w)
    case Register => w.conn == Validated(false) && w.jwt.secret != w.keys.current && !Coming(w)
    case StaleExit => w.entry == Mine && w.stale > 0 && LatestSecret(w) != w.keys.current
    case RotateStore(_, _, _, _) => w.conn == Online && w.entry != Mine && w.rotation.Idle?
    case _ => false
  }

  /** The steps that put it back on track: the next rotation it is registered for, or the end of the connection. */
  predicate Repairs(w: World, op: Op)
  {
    match op
    case RotateStore(_, _, _, _) => w.entry == Mine && w.rotation.Idle?
    case LateRegister(i) => w.entry == Mine && i < |w.late|
    case Validate(_) => true
    case Disconnect => true
    case ReEnroll(_, _, _) => true
    case RestartServer(_, _) => true
    case _ => false
  }

  lemma WithoutKeeps(s: seq<string>, i: nat, x: string)
    requires i < |s| && s[i] != x
    ensures x in Without(s, i) <==> x in s
  {
    if x in s {
      var j :| 0 <= j < |s| && s[j] == x;
      assert Without(s, i)[if j < i then j else j - 1] == x;
    }
  }

  lemma RotationOnTrack(w: World, op: Op)
    requires Inv(w) && (op.RotateStore? ==> NewSecret(w, op.secret))
    requires RotationOp(op)
    ensures OnTrack(Do(w, op)) <==> !Slips(w, op) && (Repairs(w, op) || OnTrack(w))
  {
    if op.RotateStore? && w.inbox != [] {
      assert ForAgent(w, w.inbox[|w.inbox| - 1]) && !SignedWith(w, w.inbox[|w.inbox| - 1], op.secret);
    }
  }

  lemma SendOnTrack(w: World, op: Op)
    requires Inv(w) && op.SendRekey?
    ensures OnTrack(Do(w, op)) <==> !Slips(w, op) && (Repairs(w, op) || OnTrack(w))
  {
    if op.i < |w.drawn| && w.drawn[op.i] != w.keys.current {
      WithoutKeeps(w.drawn, op.i, w.keys.current);
    }
  }

  lemma DrawOnTrack(w: World, op: Op)
    requires Inv(w) && op.DrawSecret?
    ensures OnTrack(Do(w, op)) <==> !Slips(w, op) && (Repairs(w, op) || OnTrack(w))
  {
    if w.due > 0 {
      assert Do(w, op).drawn[|w.drawn|] == w.keys.current;
    }
  }

  lemma ReadOnTrack(w: World, op: Op)
    requires Inv(w) && op.ReadRekey?
    ensures OnTrack(Do(w, op)) <==> !Slips(w, op) && (Repairs(w, op) || OnTrack(w))
  {
    if w.inbox != [] {
      assert ForAgent(w, w.inbox[0]);
    }
  }

  lemma ConnectionOnTrack(w: World, op: Op)
    requires Inv(w)
    requires op.Validate? || op.Register? || op.LateRegister? || op.StaleExit? || op.Disconnect? || op.ReEnroll?
             || op.RestartServer?
    ensures OnTrack(Do(w, op)) <==> !Slips(w, op) && (Repairs(w, op) || OnTrack(w))
  {
  }

  /** A step ends on track if and only if it does not slip, and repairs or started on track. */
  lemma StepOnTrackIff(w: World, op: Op)
    requires Inv(w) && (op.RotateStore? ==> NewSecret(w, op.secret))
    ensures OnTrack(Do(w, op)) <==> !Slips(w, op) && (Repairs(w, op) || OnTrack(w))
  {
    if RotationOp(op) {
      RotationOnTrack(w, op);
    } else if op.DrawSecret? {
      DrawOnTrack(w, op);
    } else if op.SendRekey? {
      SendOnTrack(w, op);
    } else if op.ReadRekey? {
      ReadOnTrack(w, op);
    } else {
      ConnectionOnTrack(w, op);
    }
  }

  /** Of n steps, one slips and no later one repairs. */
  ghost predicate Unrepaired(slips: nat -> bool, repairs: nat -> bool, n: nat)
  {
    exists k: nat :: k < n && slips(k) && forall l: nat | k < l < n :: !repairs(l)
  }

  lemma UnrepairedSnoc(slips: nat -> bool, repairs: nat -> bool, n: nat)
    ensures Unrepaired(slips, repairs, n + 1) <==> slips(n) || (Unrepaired(slips, repairs, n) && !repairs(n))
  {
  }

  lemma UnrepairedSame(slips: nat -> bool, repairs: nat -> bool, slips': nat -> bool, repairs': nat -> bool, n: nat)
    requires forall k: nat | k < n :: slips(k) == slips'(k) && repairs(k) == repairs'(k)
    ensures Unrepaired(slips, repairs, n) <==> Unrepaired(slips', repairs', n)
  {
  }

  ghost function SlipAt(w: World, ops: seq<Op>): nat -> bool
  {
    (k: nat) => k < |ops| && Slips(Run(w, ops[..k]), ops[k])
  }

  ghost function RepairAt(w: World, ops: seq<Op>): nat -> bool
  {
    (k: nat) => k < |ops| && Repairs(Run(w, ops[..k]), ops[k])
  }

  /** Some step of the run slips and no later one repairs. */
  ghost predicate LeftBehind(w: World, ops: seq<Op>)
  {
    Unrepaired(SlipAt(w, ops), RepairAt(w, ops), |ops|)
  }

  lemma SameAtFront(w: World, ops: seq<Op>, k: nat)
    requires k < |ops| - 1
    ensures var front := ops[..|ops| - 1];
            SlipAt(w, ops)(k) == SlipAt(w, front)(k) && RepairAt(w, ops)(k) == RepairAt(w, front)(k)
  {
    assert ops[..|ops| - 1][..k] == ops[..k];
  }

  lemma LeftBehindSnoc(w: World, ops: seq<Op>)
    requires ops != []
    ensures var mid, last := Run(w, ops[..|ops| - 1]), ops[|ops| - 1];
            LeftBehind(w, ops) <==> Slips(mid, last) || (LeftBehind(w, ops[..|ops| - 1]) && !Repairs(mid, last))
  {
    var front := ops[..|ops| - 1];
    forall k: nat | k < |front|
      ensures SlipAt(w, ops)(k) == SlipAt(w, front)(k) && RepairAt(w, ops)(k) == RepairAt(w, front)(k)
    {
      SameAtFront(w, ops, k);
    }
    UnrepairedSnoc(SlipAt(w, ops), RepairAt(w, ops), |front|);
    UnrepairedSame(SlipAt(w, ops), RepairAt(w, ops), SlipAt(w, front), RepairAt(w, front), |front|);
  }

  lemma {:induction false} RunOnTrackIff(w: World, ops: seq<Op>)
    requires Inv(w) && OnTrack(w) && FreshRotations(w, ops)
    ensures OnTrack(Run(w, ops)) <==> !LeftBehind(w, ops)
    decreases |ops|
  {
    if ops != [] {
      var front := ops[..|ops| - 1];
      FreshFront(w, ops);
      RunOnTrackIff(w, front);
      RunKeepsInv(w, front);
      StepOnTrackIff(Run(w, front), ops[|ops| - 1]);
      LeftBehindSnoc(w, ops);
    }
  }

  /** Nobody is about to send anything. */
  predicate Quiet(w: World)
  {
    w.rotation.Idle? && w.due == 0 && w.drawn == []
  }

  function Reads(n: nat): seq<Op>
  {
    if n == 0 then [] else Reads(n - 1) + [ReadRekey]
  }

  /** Reading the first message. */
  lemma ReadIs(w: World)
    requires Inv(w) && w.inbox != []
    ensures Inv(Do(w, ReadRekey)) && Do(w, ReadRekey) == w.(inbox := w.inbox[1..], jwt := w.inbox[0].plain.jwt)
  {
    assert ForAgent(w, w.inbox[0]);
    OpKeepsInv(w, ReadRekey);
  }

  lemma {:induction false} AfterReads(w: World, n: nat)
    requires Inv(w) && n <= |w.inbox|
    ensures var w' := Run(w, Reads(n));
            && Inv(w') && w' == w.(inbox := w.inbox[n..], jwt := if n == 0 then w.jwt else w.inbox[n - 1].plain.jwt)
  {
    if n > 0 {
      AfterReads(w, n - 1);
      RunSnoc(w, Reads(n - 1), ReadRekey);
      ReadIs(Run(w, Reads(n - 1)));
      assert w.inbox[n - 1..][1..] == w.inbox[n..];
    }
  }

  lemma LatestIsLast(w: World)
    requires Inv(w)
    ensures LatestSecret(w) == if w.inbox == [] then w.jwt.secret else w.inbox[|w.inbox| - 1].plain.jwt.secret
    ensures w.inbox != [] ==> w.inbox[|w.inbox| - 1].plain.jwt.alg == HS256
  {
    if w.inbox != [] {
      assert ForAgent(w, w.inbox[|w.inbox| - 1]);
    }
  }

  /** When nobody is about to send, reading decides. */
  lemma QuietReads(w: World)
    requires Inv(w) && w.conn == Online && Quiet(w)
    ensures CaughtUp(Run(w, Reads(|w.inbox|))) <==> OnTrack(w)
  {
    AfterReads(w, |w.inbox|);
    LatestIsLast(w);
  }

  /**
   After any run from enrollment that ends connected with nobody about to send, the agent, having read
   its messages, holds a token of the current secret if and only if the run never slipped, or repaired
   every slip later.
   */
  lemma ConnectedAgentConvergesIff(start: World, jti: string, at: int, ops: seq<Op>)
    requires Enrolled(start, jti, at) && FreshRotations(start, ops)
    requires Run(start, ops).conn == Online && Quiet(Run(start, ops))
    ensures CaughtUp(Run(Run(start, ops), Reads(|Run(start, ops).inbox|))) <==> !LeftBehind(start, ops)
  {
    RunKeepsInv(start, ops);
    RunOnTrackIff(start, ops);
    QuietReads(Run(start, ops));
  }

  /** The steps of rotations, and the agent's reading. */
  predicate RotationStep(op: Op)
  {
    RotationOp(op) || op.ReadRekey?
  }

  /** Some rotation stores its secret in the run. */
  ghost predicate Rotates(w: World, ops: seq<Op>)
  {
    exists k :: 0 <= k < |ops| && ops[k].RotateStore? && Run(w, ops[..k]).rotation.Idle?
  }

  lemma RotatesSnoc(w: World, ops: seq<Op>)
    requires ops != []
    ensures var front, last := ops[..|ops| - 1], ops[|ops| - 1];
            Rotates(w, ops) <==> Rotates(w, front) || (last.RotateStore? && Run(w, front).rotation.Idle?)
  {
    var front := ops[..|ops| - 1];
    assert forall k | 0 <= k < |front| :: front[..k] == ops[..k] && front[k] == ops[k];
    if Rotates(w, front) {
      var k :| 0 <= k < |front| && front[k].RotateStore? && Run(w, front[..k]).rotation.Idle?;
      assert ops[k].RotateStore? && Run(w, ops[..k]).rotation.Idle?;
    }
  }

  lemma {:induction false} RotationsMeanwhile(w: World, ops: seq<Op>, drawn: string)
    requires Inv(w) && FreshRotations(w, ops) && forall op | op in ops :: RotationStep(op)
    requires w.entry == Mine && w.due == 0 && w.drawn == [drawn] && drawn == w.keys.current
    ensures var w' := Run(w, ops);
            && Inv(w') && w'.entry == Mine && w'.due == 0 && w'.drawn == w.drawn
            && OnTrack(w') && (w'.keys.current == drawn <==> !Rotates(w, ops))
    decreases |ops|
  {
    if ops != [] {
      var front, last := ops[..|ops| - 1], ops[|ops| - 1];
      FreshFront(w, ops);
      RotationsMeanwhile(w, front, drawn);
      RotatesSnoc(w, ops);
      assert RotationStep(last);
      OpKeepsInv(Run(w, front), last);
      StepOnTrackIff(Run(w, front), last);
      assert drawn in Run(w, front).drawn;
    }
  }

  /**
   One connection: between a RekeyAgent's copying of the secret and its sending, rotations may store,
   list and send and the agent may read. When all have sent, the agent ends with the current secret if
   and only if no rotation fell in between.
   */
  lemma RekeyConvergesIff(w: World, between: seq<Op>, now: int, jti: string)
    requires Inv(w) && FreshRotations(w, between) && forall op | op in between :: RotationStep(op)
    requires w.entry == Mine && w.due == 0 && w.drawn == [w.keys.current]
    requires Run(w, between).rotation.Idle?
    ensures var w' := Do(Run(w, between), SendRekey(0, now, jti));
            CaughtUp(Run(w', Reads(|w'.inbox|))) <==> !Rotates(w, between)
  {
    var mid := Run(w, between);
    var op := SendRekey(0, now, jti);
    RotationsMeanwhile(w, between, w.keys.current);
    OpKeepsInv(mid, op);
    StepOnTrackIff(mid, op);
    QuietReads(Do(mid, op));
  }
}
