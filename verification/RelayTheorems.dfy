/** What the relay promises, in every interleaving of any number of goroutines. */
module RelayTheorems {
  import opened Base
  import opened Relay
  import opened RelayMachine
  import opened RelayInvariant

  // ---- No waiter is lost ----

  /** r waits for its answer on a task it sent through connection c. */
  predicate WaitsOn(s: State, r: Gid, c: Gid)
  {
    r in s.pcs && s.pcs[r] == ReqWait(c)
  }

  ghost predicate Answerable(s: State, r: Gid)
  {
    r in s.tb.chans && s.tb.chans[r].buf.Some?
  }

  lemma ClearedWaiter(k: Kinds, s: State, c: Gid, r: Gid)
    requires Typed(k, s) && CheckedOk(k, s) && LogsOk(k, s) && Cleared(k, s, c, {}) && WaitsOn(s, r, c)
    requires r in k && k[r].Requester? && Sole(k, k[r].task)
    ensures Answerable(s, r)
  {
    assert IsRequester(k, s, r);
    assert Settled(s, r);
    assert LogFits(k[r].task, s.pcs[r], s.tb.chans[r]);
  }

  /** Once the handler of c has unregistered, whoever waits on c with an id of its own has an answer to read. */
  lemma NoLostWaiter(k: Kinds, s: State, c: Gid, r: Gid)
    requires Reachable(k, s) && r in k && k[r].Requester? && Sole(k, k[r].task)
    requires c in s.pcs && (s.pcs[c].ConnClose? || s.pcs[c].ConnDone?) && WaitsOn(s, r, c)
    ensures Answerable(s, r)
  {
    assert Typed(k, s) && CheckedOk(k, s) && LogsOk(k, s) && ClearedOk(k, s) by {
      ReachableInv(k, s);
    }
    assert HasCollected(s.pcs[c]) && Victim(c, s.pcs[c]) == c && Remaining(s.pcs[c]) == {};
    ClearedWaiter(k, s, c, r);
  }

  /** The same once CloseAgent has returned true, for the connection it removed. */
  lemma NoLostWaiterAfterRevoke(k: Kinds, s: State, v: Gid, c: Gid, r: Gid)
    requires Reachable(k, s) && r in k && k[r].Requester? && Sole(k, k[r].task)
    requires v in s.pcs && s.pcs[v] == RevDone(Some(c)) && WaitsOn(s, r, c)
    ensures Answerable(s, r)
  {
    assert Typed(k, s) && CheckedOk(k, s) && LogsOk(k, s) && ClearedOk(k, s) by {
      ReachableInv(k, s);
    }
    assert HasCollected(s.pcs[v]) && Victim(v, s.pcs[v]) == c && Remaining(s.pcs[v]) == {};
    ClearedWaiter(k, s, c, r);
  }

  lemma UnansweredWaiter(k: Kinds, s: State, c: Gid, r: Gid)
    requires Typed(k, s) && CheckedOk(k, s) && ChansOk(k, s) && LogsOk(k, s) && WaitsOn(s, r, c) && !Answerable(s, r)
    ensures IsRequester(k, s, r) && !Settled(s, r) && Registered(s.pcs[r]) && Via(s.pcs[r]) == Some(c)
  {
    assert PcFits(k[r], r, s.pcs[r]);
    assert r in s.tb.chans;
    assert LogFits(k[r].task, s.pcs[r], s.tb.chans[r]);
  }

  /**
   A request with an id of its own that waits on an empty channel can still be found by a result and by a
   disconnect.
   */
  lemma WaiterCanBeFound(k: Kinds, s: State, c: Gid, r: Gid)
    requires Reachable(k, s) && WaitsOn(s, r, c) && !Answerable(s, r)
    requires r in k && k[r].Requester? && Sole(k, k[r].task)
    ensures Lookup(s.tb.pending, k[r].task) == Some(r)
    ensures Lookup(s.tb.hosts, k[r].task) == Some(k[r].host)
    ensures c in k && k[c] == Handler(k[r].host)
  {
    assert FindableOk(k, s) && HostsOk(k, s) && ViaOk(k, s) && Typed(k, s) && CheckedOk(k, s) && ChansOk(k, s)
           && LogsOk(k, s) by {
      ReachableInv(k, s);
    }
    UnansweredWaiter(k, s, c, r);
  }

  /** What sendTaskAndWait returns is the first message ever put into its channel, and is about its task. */
  lemma AnswerIsFirstMessage(k: Kinds, s: State, r: Gid, m: Message)
    requires Reachable(k, s)
    requires r in s.pcs && s.pcs[r] == ReqDone(Answer(m))
    ensures r in s.tb.chans && s.tb.chans[r].log != [] && s.tb.chans[r].log[0] == m
    ensures r in k && k[r].Requester? && m.taskID == k[r].task
  {
    ReachableInv(k, s);
    assert PcFits(k[r], r, s.pcs[r]);
    assert r in s.tb.chans;
    assert LogFits(k[r].task, s.pcs[r], s.tb.chans[r]);
  }

  /** Before the answer is taken a channel has had at most one message, which is the one it holds. */
  lemma AtMostOneMessage(k: Kinds, s: State, r: Gid)
    requires Reachable(k, s)
    requires r in s.tb.chans && r in s.pcs && !(s.pcs[r].ReqDone? && s.pcs[r].o.Answer?)
    ensures s.tb.chans[r].log == if s.tb.chans[r].buf.Some? then [s.tb.chans[r].buf.value] else []
  {
    ReachableInv(k, s);
    assert LogFits(k[r].task, s.pcs[r], s.tb.chans[r]);
  }

  // ---- Bookkeeping of pending tasks ----

  /** Whenever tasksMu is free, every pending task that only one request uses has a host. */
  lemma PendingTasksHaveHosts(k: Kinds, s: State, t: Task)
    requires Reachable(k, s) && t in s.tb.pending && Sole(k, t)
    requires forall g | g in k && g in s.pcs :: TasksMu !in Holds(k[g], s.pcs[g])
    ensures t in s.tb.hosts
  {
    ReachableInv(k, s);
    var r := s.tb.pending[t];
    assert IsRequester(k, s, r);
    assert TasksMu !in Holds(k[r], s.pcs[r]);
  }

  /** A pending id belongs to a request that has not returned, or its answer is just being cleaned up. */
  lemma PendingTasksAreInside(k: Kinds, s: State, t: Task)
    requires Reachable(k, s) && t in s.tb.pending
    ensures var r := s.tb.pending[t];
            && r in k && r in s.pcs && k[r].Requester? && k[r].task == t && Started(s.pcs[r])
            && (s.pcs[r].ReqDone? ==> exists g :: Forgetting(s, g, t))
  {
    ReachableInv(k, s);
    var r := s.tb.pending[t];
    assert IsRequester(k, s, r);
    if s.pcs[r].ReqDone? {
      assert r in s.tb.chans;
      assert LogFits(k[r].task, s.pcs[r], s.tb.chans[r]);
      assert Filled(s.tb, r);
    }
  }

  /** When every request has returned and nobody is settling a task, nothing is pending. */
  lemma PendingEmptyWhenIdle(k: Kinds, s: State)
    requires Reachable(k, s)
    requires forall g | g in s.pcs :: !s.pcs[g].Settle?
    requires forall r | r in s.pcs && r in k && k[r].Requester? :: !Started(s.pcs[r]) || s.pcs[r].ReqDone?
    ensures s.tb.pending == map[]
  {
    forall t | t in s.tb.pending ensures false {
      PendingTasksAreInside(k, s, t);
    }
  }

  // ---- Locks ----

  /** Nested locks are always taken upwards in Rank. */
  lemma LocksGoUp(kind: Kind, g: Gid, pc: Pc, l: Lock)
    requires PcFits(kind, g, pc) && l in Holds(kind, pc) && Wants(g, pc).Some?
    ensures Rank(l) < Rank(Wants(g, pc).value)
  {
  }

  /** No two goroutines ever hold the same lock. */
  lemma MutualExclusion(k: Kinds, s: State, g: Gid, p: Gid, l: Lock)
    requires Reachable(k, s) && g in k && p in k && g in s.pcs && p in s.pcs
    requires l in Holds(k[g], s.pcs[g]) && l in Holds(k[p], s.pcs[p])
    ensures g == p
  {
    ReachableInv(k, s);
  }

  /** g is inside WriteJSON on c, or about to enter it with conn.mu held. */
  predicate Writing(pc: Pc, c: Gid)
  {
    pc == ReqRemap(c) || pc == ReqWrite(c)
  }

  /** The next step of g writes to c or closes it, under a conn.mu it has yet to get. */
  predicate AboutToWrite(g: Gid, pc: Pc, c: Gid)
  {
    || pc == ReqLock(c) || pc == ConnRekeyWrite(c) || (pc.ConnRekeyPlain? && g == c)
    || (pc.RotWrite? && pc.c == c) || pc == RevClose(c)
  }

  /** A connection has one writer: while a request sends, no other request does, and no rekey or revoke can. */
  lemma OneWriter(k: Kinds, s: State, g: Gid, p: Gid, c: Gid, e: Event)
    requires Reachable(k, s) && g in k && p in k && g in s.pcs && p in s.pcs && g != p && Writing(s.pcs[g], c)
    ensures !Writing(s.pcs[p], c)
    ensures AboutToWrite(p, s.pcs[p], c) ==> !Enabled(k, s, p, e)
  {
    assert ConnMu(c) in Holds(k[g], s.pcs[g]);
    if Writing(s.pcs[p], c) {
      MutualExclusion(k, s, g, p, ConnMu(c));
    }
  }

  /** g is inside UnregisterConnection, after the delete. */
  predicate Unregistering(kind: Kind, pc: Pc)
  {
    kind.Handler? && (pc.Collect? || pc.Resolve? || (pc.Settle? && pc.after.ToResolve?))
  }

  /** The step looks a connection up, or changes the table of connections. */
  predicate UsesConnections(kind: Kind, g: Gid, pc: Pc, e: Event)
  {
    || pc.ReqCheck? || pc.ReqFind? || pc.ConnRekey? || pc.RotList? || (pc.RotNext? && pc.todo != {})
    || Effect(kind, g, pc, e).Connect? || Effect(kind, g, pc, e).Disconnect?
  }

  lemma ConnectionsNeedTheLock(kind: Kind, g: Gid, pc: Pc, e: Event)
    ensures UsesConnections(kind, g, pc, e) ==> Wants(g, pc) == Some(ConnectionsMu)
  {
  }

  lemma OpOnConnections(tb: Tables, op: Op)
    ensures !op.Connect? && !op.Disconnect? ==> Do(tb, op).conns == tb.conns
  {
  }

  /** UnregisterConnection is one step for the table of connections: nobody looks at it or changes it meanwhile. */
  lemma UnregisterIsAtomic(k: Kinds, s: State, g: Gid, p: Gid, e: Event)
    requires Reachable(k, s) && g in k && p in k && g in s.pcs && p in s.pcs && g != p
    requires Unregistering(k[g], s.pcs[g]) && Enabled(k, s, p, e)
    ensures !UsesConnections(k[p], p, s.pcs[p], e)
    ensures Apply(k, s, p, e).tb.conns == s.tb.conns
  {
    assert ConnectionsMu in Holds(k[g], s.pcs[g]);
    ConnectionsNeedTheLock(k[p], p, s.pcs[p], e);
    OpOnConnections(s.tb, Effect(k[p], p, s.pcs[p], e));
  }

  /** Some choice of the outside world always lets an unblocked goroutine go on. */
  function Fallback(pc: Pc): Event
  {
    match pc
    case ReqWrite(_) => WriteFail
    case ReqWait(_) => Timeout
    case ConnRekey => WriteFail
    case ConnRekeyWrite(_) => WriteFail
    case ConnRead => ReadError
    case RotWrite(_, _) => WriteFail
    case _ => Tick
  }

  ghost predicate Runs(k: Kinds, s: State, g: Gid)
  {
    exists e :: Enabled(k, s, g, e)
  }

  lemma UnblockedRuns(k: Kinds, s: State, g: Gid)
    requires Typed(k, s) && g in k && !Finished(s.pcs[g])
    requires Wants(g, s.pcs[g]).Some? ==> LockFree(k, s, g, Wants(g, s.pcs[g]).value)
    ensures Runs(k, s, g)
  {
    if s.pcs[g].Resolve? && s.pcs[g].todo != {} {
      var t :| t in s.pcs[g].todo;
      assert Enabled(k, s, g, Pick(t));
    } else if s.pcs[g].RotNext? && s.pcs[g].todo != {} {
      var h :| h in s.pcs[g].todo;
      assert Enabled(k, s, g, PickHost(h));
    } else {
      assert Enabled(k, s, g, Fallback(s.pcs[g]));
    }
  }

  /** g wants a lock that p holds. */
  ghost predicate WaitsFor(k: Kinds, s: State, g: Gid, p: Gid)
  {
    && g in k && p in k && g in s.pcs && p in s.pcs && g != p
    && Wants(g, s.pcs[g]).Some? && Wants(g, s.pcs[g]).value in Holds(k[p], s.pcs[p])
  }

  /** Each goroutine of the chain waits for the next one. */
  ghost predicate WaitChain(k: Kinds, s: State, chain: seq<Gid>)
  {
    forall i | 0 <= i < |chain| - 1 :: WaitsFor(k, s, chain[i], chain[i + 1])
  }

  /** From whoever is blocked a chain of lock holders leads to one that can go on. */
  lemma {:induction false} BlockedOnARunner(k: Kinds, s: State, g: Gid) returns (chain: seq<Gid>)
    requires Typed(k, s) && g in k && Wants(g, s.pcs[g]).Some?
    requires !LockFree(k, s, g, Wants(g, s.pcs[g]).value)
    ensures |chain| >= 2 && chain[0] == g && WaitChain(k, s, chain) && Runs(k, s, chain[|chain| - 1])
    decreases 4 - Rank(Wants(g, s.pcs[g]).value)
  {
    var l := Wants(g, s.pcs[g]).value;
    var p :| p in s.pcs && p in k && p != g && l in Holds(k[p], s.pcs[p]);
    assert WaitsFor(k, s, g, p);
    if Wants(p, s.pcs[p]).Some? && !LockFree(k, s, p, Wants(p, s.pcs[p]).value) {
      LocksGoUp(k[p], p, s.pcs[p], l);
      var rest := BlockedOnARunner(k, s, p);
      chain := [g] + rest;
      assert forall i | 1 <= i < |chain| :: chain[i] == rest[i - 1];
    } else {
      UnblockedRuns(k, s, p);
      chain := [g, p];
    }
  }

  /**
   No reachable state is stuck, not even in part: every unfinished goroutine can step, or the chain of
   lock holders that it waits for ends in one that can.
   */
  lemma NoDeadlock(k: Kinds, s: State, g: Gid)
    requires Reachable(k, s) && g in k && g in s.pcs && !Finished(s.pcs[g])
    ensures exists chain :: |chain| >= 1 && chain[0] == g && WaitChain(k, s, chain) && Runs(k, s, chain[|chain| - 1])
  {
    ReachableInv(k, s);
    if Wants(g, s.pcs[g]).Some? && !LockFree(k, s, g, Wants(g, s.pcs[g]).value) {
      var chain := BlockedOnARunner(k, s, g);
    } else {
      UnblockedRuns(k, s, g);
      assert WaitChain(k, s, [g]) && [g][0] == g;
    }
  }

  /** How far a lock holder is from releasing: coarse phase first, then the tasks and stages left. */
  function HoldPhase(pc: Pc): nat
  {
    if pc.Collect? || pc.ReqRemap? then 1 else 0
  }

  function StagesLeft(stage: Stage): nat
  {
    match stage
    case LookUp => 5
    case Send(_) => 4
    case ForgetPending => 3
    case ForgetBuffer => 2
    case ForgetHost => 1
  }

  function HoldSteps(pc: Pc): nat
  {
    if pc.Resolve? then 6 * |pc.todo|
    else if pc.Settle? && pc.after.ToResolve? then 6 * |pc.after.todo| + StagesLeft(pc.stage)
    else 0
  }

  ghost predicate Closer(kind: Kind, pc: Pc, pc': Pc)
  {
    || Holds(kind, pc') == {}
    || HoldPhase(pc') < HoldPhase(pc)
    || (HoldPhase(pc') == HoldPhase(pc) && HoldSteps(pc') < HoldSteps(pc))
  }

  lemma RequestsRelease(kind: Kind, g: Gid, pc: Pc, tb: Tables, e: Event)
    requires pc.ReqMapHost? || pc.ReqRemap? || pc.ReqWrite?
    ensures Closer(kind, pc, NextRequest(kind, g, pc, tb, e))
  {
  }

  lemma ResolvingReleases(kind: Kind, g: Gid, pc: Pc, tb: Tables, e: Event)
    requires pc.Resolve? && EventFits(tb, g, pc, e)
    ensures Holds(kind, pc) == {} || Closer(kind, pc, NextShared(kind, pc, tb, e))
  {
    if pc.todo != {} {
      assert |pc.todo - {e.t}| == |pc.todo| - 1;
    }
  }

  lemma SettlingReleases(kind: Kind, pc: Pc, tb: Tables)
    requires pc.Collect? || pc.Settle?
    ensures Holds(kind, pc) == {} || Closer(kind, pc, NextShared(kind, pc, tb, Tick))
  {
  }

  /** A lock holder that keeps stepping releases what it holds: the channel send among its steps never blocks. */
  lemma HoldersRelease(kind: Kind, g: Gid, pc: Pc, tb: Tables, e: Event)
    requires EventFits(tb, g, pc, e) && Holds(kind, pc) != {}
    ensures Closer(kind, pc, NextPc(kind, g, pc, tb, e))
  {
    if pc.Resolve? {
      ResolvingReleases(kind, g, pc, tb, e);
    } else if pc.Collect? || pc.Settle? {
      SettlingReleases(kind, pc, tb);
    } else {
      RequestsRelease(kind, g, pc, tb, e);
    }
  }
}
