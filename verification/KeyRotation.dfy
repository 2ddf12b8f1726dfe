/**
 Rotation of the JWT secret and the RSA key (handlers/security.go), what is persisted of it
 (server_config in storage/store.go), what a restart reads back (InitServerState in
 handlers/register.go), and which tokens are accepted meanwhile (ws/jwt.go, auth/jwt.go).
 */
module KeyRotation {
  import opened Base
  import opened Crypto

  /** ServerState. An empty secret means none; no deadline is Go's zero time. */
  datatype Keys = Keys(
    current: string, previous: string, deadline: Option<int>,
    rsa: Option<Key>, previousRsa: Option<Key>)

  // ---- Which tokens are accepted ----

  /** The outcome of dual-key validation: refused, or accepted and whether with the previous secret. */
  datatype Verdict = Rejected | Accepted(usedPrevious: bool)

  /** validateJWTDualKey in package ws */
  function ValidateDualKey(k: Keys, token: Jwt, now: int): Verdict
  {
    if k.current == "" then Rejected
    else if Parses(token, k.current, now) then Accepted(false)
    else if k.previous != "" && k.deadline.Some? && now < k.deadline.value && Parses(token, k.previous, now)
    then Accepted(true)
    else Rejected
  }

  /** With secret as the current one, whatever else the server holds, token is accepted exactly before end. */
  ghost predicate AcceptedBefore(secret: string, token: Jwt, end: int)
  {
    forall k: Keys, t: int | k.current == secret && secret != "" ::
      ValidateDualKey(k, token, t) == Accepted(false) <==> t < end
  }

  /** What is signed is about its subject, and lives for ttl, cut down to a whole second. */
  lemma SignedLives(secret: string, sub: Host, jti: string, now: int, ttl: int)
    ensures var token := Sign(secret, sub, jti, now, ttl);
            && token.sub == sub && token.jti == jti && token.iat == now / SECOND
            && AcceptedBefore(secret, token, (now + ttl) / SECOND * SECOND)
  {
  }

  // ---- Rotation in memory and on disk ----

  /** Steps 3 to 8 of AdminRotateKeys, under the write lock. */
  function Rotate(k: Keys, newSecret: string, newRsa: Key, deadline: int): Keys
  {
    Keys(newSecret, k.current, Some(deadline), Some(newRsa), k.rsa)
  }

  /** An RSA key as stored: in the clear, or under the master key. */
  datatype StoredKey = Clear(key: Key) | Sealed(master: string, key: Key)

  /** The five rows of server_config; an empty secret stands for a missing row. */
  datatype Config = Config(
    jwtCurrent: string, jwtPrevious: string, deadline: Option<int>,   // whole seconds, as RFC 3339 writes them
    rsaCurrent: Option<StoredKey>, rsaPrevious: Option<StoredKey>)

  /** persistRSAKey */
  function Seal(master: Option<string>, key: Key): StoredKey
  {
    match master case None => Clear(key) case Some(m) => Sealed(m, key)
  }

  /** loadRSAKey */
  function Unseal(master: Option<string>, stored: StoredKey): Option<Key>
  {
    match stored
    case Clear(key) => Some(key)
    case Sealed(m, key) => if master == Some(m) then Some(key) else None
  }

  /** The ConfigSet calls of a rotation from k to k', in order; a call may fail and is then only logged. */
  function Write(cfg: Config, k: Keys, k': Keys, master: Option<string>, n: nat): Config
    requires k'.deadline.Some? && k'.rsa.Some?
  {
    match n
    case 0 => cfg.(jwtPrevious := k.current)
    case 1 => cfg.(jwtCurrent := k'.current)
    case 2 => cfg.(deadline := Some(Unix(k'.deadline.value)))
    case 3 => if k.rsa.Some? then cfg.(rsaPrevious := Some(Seal(master, k.rsa.value))) else cfg
    case 4 => cfg.(rsaCurrent := Some(Seal(master, k'.rsa.value)))
    case _ => cfg
  }

  /** What is on disk when, of the first n calls, exactly those in done have taken effect. */
  function Written(cfg: Config, k: Keys, k': Keys, master: Option<string>, done: nat -> bool, n: nat): Config
    requires k'.deadline.Some? && k'.rsa.Some?
  {
    if n == 0 then cfg
    else
      var before := Written(cfg, k, k', master, done, n - 1);
      if done(n - 1) then Write(before, k, k', master, n - 1) else before
  }

  const WRITES: nat := 5

  /** What InitServerState makes of the rows; None when it fails. env is the secret from the environment. */
  function Load(cfg: Config, env: string, master: Option<string>, generated: Key): Option<Keys>
  {
    var rsa := match cfg.rsaCurrent case None => Some(generated) case Some(stored) => Unseal(master, stored);
    if rsa.None? then None
    else
      Some(Keys(
        if cfg.jwtCurrent == "" then env else cfg.jwtCurrent,
        cfg.jwtPrevious,
        if cfg.deadline.Some? then Some(cfg.deadline.value * SECOND) else None,
        rsa,
        match cfg.rsaPrevious case None => None case Some(stored) => Unseal(master, stored)))
  }

  /** The rows after a start: a first boot persists the secret and the key. */
  function Booted(cfg: Config, env: string, master: Option<string>, generated: Key): Config
  {
    cfg.(jwtCurrent := if cfg.jwtCurrent == "" then env else cfg.jwtCurrent,
         rsaCurrent := if cfg.rsaCurrent.None? then Some(Seal(master, generated)) else cfg.rsaCurrent)
  }

  /** The rows hold what is in memory, the deadline cut to whole seconds. */
  predicate InSync(k: Keys, cfg: Config, master: Option<string>)
  {
    && k.current != "" && cfg.jwtCurrent == k.current && cfg.jwtPrevious == k.previous
    && cfg.deadline == (match k.deadline case None => None case Some(d) => Some(Unix(d)))
    && k.rsa.Some? && cfg.rsaCurrent == Some(Seal(master, k.rsa.value))
    && cfg.rsaPrevious == (match k.previousRsa case None => None case Some(key) => Some(Seal(master, key)))
  }

  /** Memory after a restart: the deadline is cut down to whole seconds. */
  function Cut(k: Keys): Keys
  {
    k.(deadline := match k.deadline case None => None case Some(d) => Some(Unix(d) * SECOND))
  }

  /** A stored key comes back exactly when it was in the clear or the master key is still the same. */
  lemma SealRoundTripIff(master: Option<string>, later: Option<string>, key: Key)
    ensures Unseal(later, Seal(master, key)) == Some(key) <==> (master.None? || later == master)
    ensures Unseal(later, Seal(master, key)).Some? ==> Unseal(later, Seal(master, key)) == Some(key)
  {
  }

  lemma WrittenAll(cfg: Config, k: Keys, k': Keys, master: Option<string>, done: nat -> bool)
    requires k'.deadline.Some? && k'.rsa.Some?
    ensures Written(cfg, k, k', master, done, WRITES) ==
            Config(if done(1) then k'.current else cfg.jwtCurrent,
                   if done(0) then k.current else cfg.jwtPrevious,
                   if done(2) then Some(Unix(k'.deadline.value)) else cfg.deadline,
                   if done(4) then Some(Seal(master, k'.rsa.value)) else cfg.rsaCurrent,
                   if done(3) && k.rsa.Some? then Some(Seal(master, k.rsa.value)) else cfg.rsaPrevious)
  {
    var w0 := Written(cfg, k, k', master, done, 0);
    var w1 := Written(cfg, k, k', master, done, 1);
    var w2 := Written(cfg, k, k', master, done, 2);
    var w3 := Written(cfg, k, k', master, done, 3);
    var w4 := Written(cfg, k, k', master, done, 4);
    assert w1 == if done(0) then Write(w0, k, k', master, 0) else w0;
    assert w2 == if done(1) then Write(w1, k, k', master, 1) else w1;
    assert w3 == if done(2) then Write(w2, k, k', master, 2) else w2;
    assert w4 == if done(3) then Write(w3, k, k', master, 3) else w3;
  }

  /**
   A crash during the writes, some of which may have failed: the secret that is read back is the old
   or the new one, and the old one is still in one of the two slots if and only if the new current
   secret was not written without the old one having been written as previous.
   */
  lemma CrashKeepsOldSecretIff(cfg: Config, k: Keys, newSecret: string, newRsa: Key, deadline: int,
                               master: Option<string>, done: nat -> bool, env: string, generated: Key)
    requires InSync(k, cfg, master) && newSecret != "" && newSecret != k.current && k.previous != k.current
    ensures var k' := Rotate(k, newSecret, newRsa, deadline);
            var loaded := Load(Written(cfg, k, k', master, done, WRITES), env, master, generated);
            && loaded.Some?
            && (loaded.value.current == k.current || loaded.value.current == newSecret)
            && (loaded.value.current == k.current || loaded.value.previous == k.current <==> (done(1) ==> done(0)))
  {
    WrittenAll(cfg, k, Rotate(k, newSecret, newRsa, deadline), master, done);
  }

  /** The first n calls, all of which succeed. */
  function FirstWrites(n: nat): nat -> bool
  {
    i => i < n
  }

  /** All calls but the failing ones. */
  function AllBut(failing: set<nat>): nat -> bool
  {
    i => i !in failing
  }

  /** With no failing write, a crash between any two of them keeps the old secret in one of the slots. */
  lemma CrashBetweenWrites(cfg: Config, k: Keys, newSecret: string, newRsa: Key, deadline: int, master: Option<string>,
                           n: nat, env: string, generated: Key)
    requires InSync(k, cfg, master) && newSecret != "" && newSecret != k.current && k.previous != k.current
    requires n <= WRITES
    ensures var k' := Rotate(k, newSecret, newRsa, deadline);
            var loaded := Load(Written(cfg, k, k', master, FirstWrites(n), WRITES), env, master, generated);
            && loaded.Some?
            && loaded.value.current == (if n < 2 then k.current else newSecret)
            && (loaded.value.current == k.current || loaded.value.previous == k.current)
            && loaded.value.rsa == (if n < 5 then k.rsa else Some(newRsa))
  {
    WrittenAll(cfg, k, Rotate(k, newSecret, newRsa, deadline), master, FirstWrites(n));
    CrashKeepsOldSecretIff(cfg, k, newSecret, newRsa, deadline, master, FirstWrites(n), env, generated);
  }

  /**
   A crash after the two secrets but before the deadline: tokens signed with the old secret are then
   judged by the deadline of the rotation before, and by none if there was none.
   */
  lemma CrashBeforeDeadlineWrite(cfg: Config, k: Keys, newSecret: string, newRsa: Key, deadline: int,
                                 master: Option<string>, env: string, generated: Key, token: Jwt, now: int)
    requires InSync(k, cfg, master) && newSecret != "" && newSecret != k.current && k.previous != k.current
    requires token.secret == k.current && token.alg == HS256 && now < token.exp * SECOND
    ensures var k' := Rotate(k, newSecret, newRsa, deadline);
            var loaded := Load(Written(cfg, k, k', master, FirstWrites(2), WRITES), env, master, generated);
            loaded.Some? &&
            ValidateDualKey(loaded.value, token, now) ==
              if k.deadline.Some? && now < Unix(k.deadline.value) * SECOND then Accepted(true) else Rejected
  {
    WrittenAll(cfg, k, Rotate(k, newSecret, newRsa, deadline), master, FirstWrites(2));
  }

  /** Whatever loaded accepts, running accepts at the same time. */
  ghost predicate AcceptsNoMore(loaded: Keys, running: Keys)
  {
    forall token, now ::
      ValidateDualKey(loaded, token, now).Accepted? ==> ValidateDualKey(running, token, now).Accepted?
  }

  /** The deadline that the rows hold in whole seconds after the writes in done. */
  function DeadlineRead(k: Keys, deadline: int, done: nat -> bool): Option<int>
  {
    if done(2) then Some(Unix(deadline) * SECOND)
    else match k.deadline case None => None case Some(d) => Some(Unix(d) * SECOND)
  }

  /**
   A crash during the writes, any of which may have failed: what is accepted after the restart was
   accepted before it if and only if the new current secret was written and, if the old one was written
   as previous, the deadline read back is no later than the new one; if it was not, no secret from
   before is left under a deadline.
   */
  lemma CrashContainedIff(cfg: Config, k: Keys, newSecret: string, newRsa: Key, deadline: int, master: Option<string>,
                          done: nat -> bool, env: string, generated: Key)
    requires InSync(k, cfg, master) && newSecret != "" && newSecret != k.current && newSecret != k.previous
    requires k.previous != k.current
    ensures var k' := Rotate(k, newSecret, newRsa, deadline);
            var loaded := Load(Written(cfg, k, k', master, done, WRITES), env, master, generated);
            var d := DeadlineRead(k, deadline, done);
            && loaded.Some?
            && (AcceptsNoMore(loaded.value, k') <==>
                  done(1) && (d.None? || if done(0) then d.value <= deadline else k.previous == ""))
  {
    var k' := Rotate(k, newSecret, newRsa, deadline);
    WrittenAll(cfg, k, k', master, done);
    var loaded := Load(Written(cfg, k, k', master, done, WRITES), env, master, generated).value;
    LoadedIs(cfg, k, newSecret, newRsa, deadline, master, done, env, generated);
    ContainedIff(loaded, k', newSecret, k.current);
  }

  lemma LoadedIs(cfg: Config, k: Keys, newSecret: string, newRsa: Key, deadline: int, master: Option<string>,
                 done: nat -> bool, env: string, generated: Key)
    requires InSync(k, cfg, master) && newSecret != ""
    ensures var k' := Rotate(k, newSecret, newRsa, deadline);
            var loaded := Load(Written(cfg, k, k', master, done, WRITES), env, master, generated);
            && loaded.Some?
            && loaded.value.current == (if done(1) then newSecret else k.current)
            && loaded.value.previous == (if done(0) then k.current else k.previous)
            && loaded.value.deadline == DeadlineRead(k, deadline, done)
  {
    WrittenAll(cfg, k, Rotate(k, newSecret, newRsa, deadline), master, done);
  }

  /** A token signed with this secret that expires after t. */
  function LongToken(secret: string, t: int): Jwt
  {
    Jwt(HS256, secret, "", "", 0, if t < 0 then 1 else t + 1)
  }

  lemma LongTokenParses(secret: string, t: int, now: int)
    ensures now <= t ==> Parses(LongToken(secret, t), secret, now)
    ensures forall other | other != secret :: !Parses(LongToken(secret, t), other, now)
  {
  }

  /** Containment of what two sets of keys accept, running being just after a rotation to latest from old. */
  lemma ContainedIff(loaded: Keys, running: Keys, latest: string, former: string)
    requires running.current == latest && running.previous == former && running.deadline.Some?
    requires latest != "" && former != "" && latest != former && loaded.previous != latest
    requires loaded.current == latest || (loaded.current == former && loaded.current != "")
    ensures AcceptsNoMore(loaded, running) <==>
            loaded.current == latest
            && (loaded.deadline.None? || loaded.previous == ""
                || (loaded.previous == former && loaded.deadline.value <= running.deadline.value))
  {
    var d := running.deadline.value;
    if loaded.current == former {
      LongTokenParses(former, d, d);
      assert ValidateDualKey(loaded, LongToken(former, d), d).Accepted?;
      assert !ValidateDualKey(running, LongToken(former, d), d).Accepted?;
    } else if loaded.deadline.Some? && loaded.previous != "" {
      var e := loaded.deadline.value;
      if loaded.previous == former {
        if e > d {
          LongTokenParses(former, e, d);
          assert ValidateDualKey(loaded, LongToken(former, e), d).Accepted?;
          assert !ValidateDualKey(running, LongToken(former, e), d).Accepted?;
        }
      } else {
        LongTokenParses(loaded.previous, e, e - 1);
        var token := LongToken(loaded.previous, e);
        assert ValidateDualKey(loaded, token, e - 1).Accepted? && !ValidateDualKey(running, token, e - 1).Accepted?;
      }
    }
  }

  /** In particular, without failing writes: never before the second, always from the third on. */
  lemma CrashPointContainedIff(cfg: Config, k: Keys, newSecret: string, newRsa: Key, deadline: int,
                               master: Option<string>, n: nat, env: string, generated: Key)
    requires InSync(k, cfg, master) && newSecret != "" && newSecret != k.current && newSecret != k.previous
    requires k.previous != k.current && n <= WRITES
    ensures var k' := Rotate(k, newSecret, newRsa, deadline);
            var loaded := Load(Written(cfg, k, k', master, FirstWrites(n), WRITES), env, master, generated);
            && loaded.Some?
            && (AcceptsNoMore(loaded.value, k') <==>
                  n >= 3 || (n == 2 && (k.deadline.None? || Unix(k.deadline.value) * SECOND <= deadline)))
  {
    CrashContainedIff(cfg, k, newSecret, newRsa, deadline, master, FirstWrites(n), env, generated);
    assert Unix(deadline) * SECOND <= deadline;
  }

  /** With all writes done the rows are in sync again. */
  lemma RotationSyncs(cfg: Config, k: Keys, newSecret: string, newRsa: Key, deadline: int, master: Option<string>)
    requires InSync(k, cfg, master) && newSecret != ""
    ensures var k' := Rotate(k, newSecret, newRsa, deadline);
            InSync(k', Written(cfg, k, k', master, FirstWrites(WRITES), WRITES), master)
  {
    WrittenAll(cfg, k, Rotate(k, newSecret, newRsa, deadline), master, FirstWrites(WRITES));
  }

  /** Reading rows that are in sync gives back memory with the deadline cut, and leaves the rows alone. */
  lemma LoadInSync(k: Keys, cfg: Config, master: Option<string>, env: string, generated: Key)
    requires InSync(k, cfg, master)
    ensures Load(cfg, env, master, generated) == Some(Cut(k))
    ensures Booted(cfg, env, master, generated) == cfg
    ensures InSync(Cut(k), cfg, master)
  {
    if k.deadline.Some? {
      assert Unix(Unix(k.deadline.value) * SECOND) == Unix(k.deadline.value);
    }
  }

  /** A restart never accepts more than before, and differs only in the cut-off fraction of a second. */
  lemma RestartAcceptsNoMore(k: Keys, token: Jwt, now: int)
    ensures ValidateDualKey(Cut(k), token, now).Accepted? ==>
              ValidateDualKey(Cut(k), token, now) == ValidateDualKey(k, token, now)
    ensures ValidateDualKey(Cut(k), token, now) != ValidateDualKey(k, token, now)
            <==> k.deadline.Some? && Unix(k.deadline.value) * SECOND <= now < k.deadline.value
                 && ValidateDualKey(k, token, now) == Accepted(true)
  {
  }

  // ---- Starting again ----

  /**
   A start that came up with k, on any rows, complete or empty, has left all of k in the rows: the next
   start gives k again, whatever it finds in the environment and would generate, and changes no row.
   */
  lemma StartsAlike(cfg: Config, env: string, master: Option<string>, generated: Key, env': string, generated': Key)
    requires env != "" && Load(cfg, env, master, generated).Some?
    ensures var rows := Booted(cfg, env, master, generated);
            && Load(rows, env', master, generated') == Load(cfg, env, master, generated)
            && Booted(rows, env', master, generated') == rows
  {
  }

  // ---- Rotation history ----

  datatype Event =
    | Rotation(secret: string, rsa: Key, deadline: int)
    | Restart(env: string, generated: Key)

  /** Memory and rows after a serialised history; a restart that could not load stops the server. */
  function After(k: Keys, cfg: Config, master: Option<string>, events: seq<Event>): (Keys, Config)
    decreases |events|
  {
    if events == [] then (k, cfg)
    else
      var (k1, cfg1) := After(k, cfg, master, events[..|events| - 1]);
      match events[|events| - 1]
      case Rotation(secret, rsa, deadline) =>
        var k' := Rotate(k1, secret, rsa, deadline);
        (k', Written(cfg1, k1, k', master, FirstWrites(WRITES), WRITES))
      case Restart(env, generated) =>
        match Load(cfg1, env, master, generated)
        case None => (k1, cfg1)
        case Some(k') => (k', Booted(cfg1, env, master, generated))
  }

  /** The secrets in the order they were introduced, the first being the one before any rotation. */
  function Secrets(first: string, events: seq<Event>): seq<string>
  {
    if events == [] then [first]
    else
      var front := Secrets(first, events[..|events| - 1]);
      var last := events[|events| - 1];
      if last.Rotation? then front + [last.secret] else front
  }

  /** Until when the previous secret counts: the deadline of the latest rotation, cut by any restart since. */
  function GraceEnd(events: seq<Event>): Option<int>
  {
    if events == [] then None
    else
      var last := events[|events| - 1];
      if last.Rotation? then Some(last.deadline)
      else match GraceEnd(events[..|events| - 1]) case None => None case Some(d) => Some(Unix(d) * SECOND)
  }

  predicate Distinct(secrets: seq<string>)
  {
    && (forall i | 0 <= i < |secrets| :: secrets[i] != "")
    && (forall i, j | 0 <= i < j < |secrets| :: secrets[i] != secrets[j])
  }

  lemma {:induction false} KeysAfter(k: Keys, cfg: Config, master: Option<string>, events: seq<Event>)
    requires InSync(k, cfg, master) && k.previous == "" && k.deadline.None?
    requires Distinct(Secrets(k.current, events))
    ensures var (k', cfg') := After(k, cfg, master, events);
            var secrets := Secrets(k.current, events);
            && InSync(k', cfg', master)
            && |secrets| > 0 && k'.current == secrets[|secrets| - 1]
            && k'.previous == (if |secrets| == 1 then "" else secrets[|secrets| - 2])
            && k'.deadline == GraceEnd(events)
    decreases |events|
  {
    if events != [] {
      var front, last := events[..|events| - 1], events[|events| - 1];
      var before, secrets := Secrets(k.current, front), Secrets(k.current, events);
      assert forall i | 0 <= i < |before| :: before[i] == secrets[i];
      KeysAfter(k, cfg, master, front);
      var (k1, cfg1) := After(k, cfg, master, front);
      match last
      case Rotation(secret, rsa, deadline) =>
        assert secret == secrets[|secrets| - 1];
        RotationSyncs(cfg1, k1, secret, rsa, deadline, master);
      case Restart(env, generated) =>
        LoadInSync(k1, cfg1, master, env, generated);
    }
  }

  /**
   Over any serialised history of rotations with distinct secrets, and restarts, exactly the unexpired
   HS256 tokens are accepted that are signed with the latest secret, or with the one just before while the
   grace period of the latest rotation has not ended. Older secrets are never accepted.
   */
  lemma TokensAcceptedAfter(k: Keys, cfg: Config, master: Option<string>, events: seq<Event>, token: Jwt, now: int)
    requires InSync(k, cfg, master) && k.previous == "" && k.deadline.None?
    requires Distinct(Secrets(k.current, events))
    ensures var verdict := ValidateDualKey(After(k, cfg, master, events).0, token, now);
            var secrets := Secrets(k.current, events);
            var n := |secrets| - 1;
            && n >= 0
            && (verdict == Accepted(false) <==>
                  token.alg == HS256 && now < token.exp * SECOND && token.secret == secrets[n])
            && (verdict == Accepted(true) <==>
                  && token.alg == HS256 && now < token.exp * SECOND
                  && n >= 1 && token.secret == secrets[n - 1]
                  && GraceEnd(events).Some? && now < GraceEnd(events).value)
  {
    KeysAfter(k, cfg, master, events);
  }

  // ---- The server object ----

  class KeyServer {
    var keys: Keys
    var config: Config
    const master: Option<string>

    constructor (secret: string, master: Option<string>)
      ensures this.master == master
      ensures keys == Keys(secret, "", None, None, None) && config == Config("", "", None, None, None)
    {
      this.master := master;
      keys := Keys(secret, "", None, None, None);
      config := Config("", "", None, None, None);
    }

    /**
     Called once at start-up, with memory holding only the secret from the environment. Memory is then what
     the rows say; the two rows that a first boot lacks are filled in, and no other row changes.
     */
    method InitServerState(generated: Key) returns (ok: bool)
      requires keys.deadline.None? && keys.previousRsa.None?
      modifies this
      ensures ok <==> Load(old(config), old(keys).current, master, generated).Some?
      ensures ok ==> keys == Load(old(config), old(keys).current, master, generated).value
                     && config == Booted(old(config), old(keys).current, master, generated)
      ensures ok <==> old(config).rsaCurrent.None? || Unseal(master, old(config).rsaCurrent.value).Some?
      ensures ok ==> && keys.current == config.jwtCurrent && keys.previous == config.jwtPrevious
                     && keys.deadline == (match config.deadline case None => None case Some(d) => Some(d * SECOND))
                     && config.rsaCurrent.Some? && keys.rsa.Some?
                     && keys.rsa == Unseal(master, config.rsaCurrent.value)
                     && keys.previousRsa == (match config.rsaPrevious case None => None
                                             case Some(stored) => Unseal(master, stored))
      ensures config.jwtCurrent == if old(config).jwtCurrent != "" then old(config).jwtCurrent else old(keys).current
      ensures old(config).rsaCurrent.Some? ==> config.rsaCurrent == old(config).rsaCurrent
      ensures old(config).rsaCurrent.None? ==> config.rsaCurrent.Some? && keys.rsa == Some(generated)
      ensures config == old(config).(jwtCurrent := config.jwtCurrent, rsaCurrent := config.rsaCurrent)
    {
      if config.jwtCurrent == "" {
        config := config.(jwtCurrent := keys.current);
      } else {
        keys := keys.(current := config.jwtCurrent);
      }
      keys := keys.(previous := config.jwtPrevious);
      if config.deadline.Some? {
        keys := keys.(deadline := Some(config.deadline.value * SECOND));
      }
      if config.rsaCurrent.None? {
        config := config.(rsaCurrent := Some(Seal(master, generated)));
        keys := keys.(rsa := Some(generated));
      } else {
        var rsa := Unseal(master, config.rsaCurrent.value);
        if rsa.None? {
          return false;
        }
        keys := keys.(rsa := rsa);
      }
      if config.rsaPrevious.Some? {
        keys := keys.(previousRsa := Unseal(master, config.rsaPrevious.value));
      }
      return true;
    }

    /** The process ends and another one starts on the same rows: only the environment is in its memory. */
    method StartAgain(env: string, generated: Key) returns (ok: bool)
      modifies this
      ensures ok <==> Load(old(config), env, master, generated).Some?
      ensures ok ==> keys == Load(old(config), env, master, generated).value
                     && config == Booted(old(config), env, master, generated)
    {
      keys := Keys(env, "", None, None, None);
      ok := InitServerState(generated);
    }

    /** Two starts, the second with anything in the environment: the same keys, and no row changes. */
    method StartTwice(env: string, generated: Key, env': string, generated': Key)
      returns (first: Option<Keys>, rows: Config, ok: bool)
      requires env != ""
      modifies this
      ensures first.Some? ==> ok && keys == first.value && config == rows
      ensures first.None? ==> !ok
    {
      ok := StartAgain(env, generated);
      first, rows := None, config;
      if ok {
        first := Some(keys);
        StartsAlike(old(config), env, master, generated, env', generated');
        ok := StartAgain(env', generated');
      }
    }

    /** Memory first, then the five writes one by one; those in failing are logged and skipped. */
    method AdminRotateKeys(newSecret: string, newRsa: Key, now: int, grace: int, failing: set<nat>)
      modifies this
      ensures keys == Rotate(old(keys), newSecret, newRsa, now + grace)
      ensures config == Written(old(config), old(keys), keys, master, AllBut(failing), WRITES)
      ensures keys == Keys(newSecret, old(keys).current, Some(now + grace), Some(newRsa), old(keys).rsa)
      ensures config.jwtPrevious == if 0 in failing then old(config).jwtPrevious else old(keys).current
      ensures config.jwtCurrent == if 1 in failing then old(config).jwtCurrent else newSecret
      ensures config.deadline == if 2 in failing then old(config).deadline else Some((now + grace) / SECOND)
      ensures 3 in failing || old(keys).rsa.None? ==> config.rsaPrevious == old(config).rsaPrevious
      ensures 3 !in failing && old(keys).rsa.Some? ==>
                config.rsaPrevious.Some? && Unseal(master, config.rsaPrevious.value) == old(keys).rsa
      ensures 4 in failing ==> config.rsaCurrent == old(config).rsaCurrent
      ensures 4 !in failing ==> config.rsaCurrent.Some? && Unseal(master, config.rsaCurrent.value) == Some(newRsa)
    {
      var before := keys;
      keys := Keys(newSecret, before.current, Some(now + grace), Some(newRsa), before.rsa);
      if 0 !in failing {
        config := config.(jwtPrevious := before.current);
      }
      if 1 !in failing {
        config := config.(jwtCurrent := newSecret);
      }
      if 2 !in failing {
        config := config.(deadline := Some(Unix(now + grace)));
      }
      if before.rsa.Some? && 3 !in failing {
        config := config.(rsaPrevious := Some(Seal(master, before.rsa.value)));
      }
      if 4 !in failing {
        config := config.(rsaCurrent := Some(Seal(master, newRsa)));
      }
      WrittenAll(old(config), before, keys, master, AllBut(failing));
    }

    /** Verify in package auth, on the secrets this server hands out: the same verdict as package ws. */
    method Verify(token: Jwt, now: int) returns (verdict: Verdict)
      ensures verdict == ValidateDualKey(keys, token, now)
    {
      var current, previous, deadline := keys.current, keys.previous, keys.deadline;
      if current == "" {
        return Rejected;
      }
      if Parses(token, current, now) {
        return Accepted(false);
      }
      if previous != "" && deadline.Some? && now < deadline.value {
        if Parses(token, previous, now) {
          return Accepted(true);
        }
      }
      return Rejected;
    }
  }
}
