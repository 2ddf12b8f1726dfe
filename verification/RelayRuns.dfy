/**
 What the registry of connections promises, and what not: a connection that was revoked or whose handler is
 done is closed, but a replaced connection's handler unregisters its successor.
 */
module RelayRuns {
  import opened Base
  import opened Relay
  import opened RelayMachine
  import opened RelayInvariant

  // ---- Connections that are closed ----

  /** Whoever has cut a connection and gone past its Close has closed it. */
  ghost predicate ClosingOk(k: Kinds, s: State)
  {
    forall g | g in k && g in s.pcs :: ClosingAt(k[g], g, s.pcs[g], s.tb)
  }

  predicate ClosingAt(kind: Kind, g: Gid, pc: Pc, tb: Tables)
  {
    && (kind.Revoker? && CuttingPc(pc) && !pc.RevClose? ==> Victim(g, pc) in tb.closed)
    && (pc.ConnDone? ==> g in tb.closed)
  }

  lemma ClosedGrows(tb: Tables, op: Op)
    ensures tb.closed <= Do(tb, op).closed
  {
  }

  lemma OwnClosing(kind: Kind, g: Gid, pc: Pc, tb: Tables, e: Event)
    requires PcFits(kind, g, pc) && EventFits(tb, g, pc, e) && !Finished(pc) && ClosingAt(kind, g, pc, tb)
    ensures ClosingAt(kind, g, NextPc(kind, g, pc, tb, e), Do(tb, Effect(kind, g, pc, e)))
  {
    ClosedGrows(tb, Effect(kind, g, pc, e));
    if CuttingPc(pc) {
      VictimStays(kind, g, pc, tb, e);
    }
  }

  lemma StepClosing(k: Kinds, s: State, g: Gid, e: Event)
    requires Typed(k, s) && ClosingOk(k, s) && CanStep(k, s, g, e)
    ensures ClosingOk(k, Apply(k, s, g, e))
  {
    OwnClosing(k[g], g, s.pcs[g], s.tb, e);
    ClosedGrows(s.tb, Effect(k[g], g, s.pcs[g], e));
    var s' := Apply(k, s, g, e);
    forall p | p in k && p in s'.pcs ensures ClosingAt(k[p], p, s'.pcs[p], s'.tb) {
      assert ClosingAt(k[p], p, s.pcs[p], s.tb);
    }
  }

  lemma {:induction false} RunClosing(k: Kinds, states: seq<State>, moves: seq<Move>, n: nat)
    requires IsRun(k, states, moves, true) && states[0] == Init(k) && n <= |moves|
    ensures ClosingOk(k, states[n])
  {
    if n > 0 {
      RunClosing(k, states, moves, n - 1);
      assert Typed(k, states[n - 1]) by {
        InitInv(k);
        RunInv(k, states, moves, n - 1);
      }
      assert StepOk(k, states[n - 1], moves[n - 1], states[n - 1 + 1], true);
      StepClosing(k, states[n - 1], moves[n - 1].g, moves[n - 1].e);
    }
  }

  lemma ReachableClosing(k: Kinds, s: State)
    requires Reachable(k, s)
    ensures ClosingOk(k, s) && VictimsOk(k, s)
  {
    var states, moves :| IsRun(k, states, moves, true) && states[0] == Init(k) && states[|moves|] == s;
    RunClosing(k, states, moves, |moves|);
    ReachableInv(k, s);
  }

  /** When CloseAgent has returned true, a connection of its host is closed and out of the table for good. */
  lemma RevokeCloses(k: Kinds, s: State, v: Gid, c: Gid)
    requires Reachable(k, s) && v in k && k[v].Revoker? && v in s.pcs && s.pcs[v] == RevDone(Some(c))
    ensures c in k && k[c] == Handler(k[v].host)
    ensures c in s.tb.closed && c !in s.tb.conns.Values
  {
    ReachableClosing(k, s);
    assert Victim(v, s.pcs[v]) == c;
  }

  /** When a handler is done its connection is closed and out of the table. */
  lemma HandlerCloses(k: Kinds, s: State, c: Gid)
    requires Reachable(k, s) && c in k && c in s.pcs && s.pcs[c].ConnDone?
    ensures c in s.tb.closed && c !in s.tb.conns.Values
  {
    ReachableClosing(k, s);
    assert Victim(c, s.pcs[c]) == c;
  }

  /** Registering closes the connection that it replaces, and no other host's entry changes. */
  lemma RegisterReplaces(k: Kinds, s: State, c: Gid, e: Event)
    requires Reachable(k, s) && Enabled(k, s, c, e) && s.pcs[c].ConnRegister?
    ensures var h, s' := HostOf(k[c]), Apply(k, s, c, e);
            && s'.tb.conns == s.tb.conns[h := c]
            && s'.tb.closed == s.tb.closed + (if h in s.tb.conns then {s.tb.conns[h]} else {})
            && (h in s.tb.conns ==> s.tb.conns[h] != c && Lookup(k, s.tb.conns[h]) == Some(k[c]))
  {
    assert Typed(k, s) && ConnsOk(k, s) by {
      ReachableInv(k, s);
    }
    assert PcFits(k[c], c, s.pcs[c]);
  }

  // ---- A replaced connection's handler unregisters its successor ----

  lemma OwnEntryOnly(k: Kinds, s: State, g: Gid)
    requires Typed(k, s) && ConnsOk(k, s) && g in k && s.pcs[g].ConnUnregister?
    ensures k[g].Handler?
    ensures (forall c | c in s.tb.conns.Values && c != g :: c in DropConnection(s.tb, k[g].host).conns.Values)
            <==> (k[g].host !in s.tb.conns || s.tb.conns[k[g].host] == g)
  {
    assert PcFits(k[g], g, s.pcs[g]);
    var h := k[g].host;
    var rest := DropConnection(s.tb, h).conns;
    if h !in s.tb.conns || s.tb.conns[h] == g {
      forall c | c in s.tb.conns.Values && c != g ensures c in rest.Values {
        var x :| x in s.tb.conns && s.tb.conns[x] == c;
        assert x in rest && rest[x] == c;
      }
    } else {
      var c := s.tb.conns[h];
      assert k[c] == Handler(h);
      forall x | x in rest ensures rest[x] != c {
        assert k[rest[x]] == Handler(x);
      }
      assert c in s.tb.conns.Values && c != g && c !in rest.Values;
    }
  }

  /**
   UnregisterConnection deletes by hostname. It keeps every other connection registered if and only
   if the entry it finds is its own, or there is none.
   */
  lemma UnregisterKeepsOthersIff(k: Kinds, s: State, g: Gid)
    requires Reachable(k, s) && g in k && g in s.pcs && s.pcs[g].ConnUnregister?
    ensures k[g].Handler?
    ensures (forall c | c in s.tb.conns.Values && c != g :: c in Apply(k, s, g, Tick).tb.conns.Values)
            <==> (k[g].host !in s.tb.conns || s.tb.conns[k[g].host] == g)
  {
    assert Typed(k, s) && ConnsOk(k, s) by {
      ReachableInv(k, s);
    }
    OwnEntryOnly(k, s, g);
  }

  function TwoHandlers(h: Host): Kinds
  {
    map[0 := Handler(h), 1 := Handler(h)]
  }

  /** Connect, reconnect, then the first handler notices its closed connection. */
  function StaleStates(h: Host): seq<State>
  {
    var first, second := PutConnection(EMPTY, h, 0), PutConnection(PutConnection(EMPTY, h, 0), h, 1);
    [Init(TwoHandlers(h)),
     State(map[0 := ConnRead, 1 := ConnRegister], first, {}),
     State(map[0 := ConnRead, 1 := ConnRead], second, {}),
     State(map[0 := ConnUnregister, 1 := ConnRead], second, {}),
     State(map[0 := Collect(0), 1 := ConnRead], DropConnection(second, h), {})]
  }

  const STALE_MOVES: seq<Move> := [Move(0, Tick), Move(1, Tick), Move(0, ReadError), Move(0, Tick)]

  lemma StaleStep0(h: Host)
    ensures StepOk(TwoHandlers(h), StaleStates(h)[0], STALE_MOVES[0], StaleStates(h)[1], true)
  {
  }

  lemma StaleStep1(h: Host)
    ensures StepOk(TwoHandlers(h), StaleStates(h)[1], STALE_MOVES[1], StaleStates(h)[2], true)
  {
  }

  lemma StaleStep2(h: Host)
    ensures StepOk(TwoHandlers(h), StaleStates(h)[2], STALE_MOVES[2], StaleStates(h)[3], true)
  {
  }

  lemma StaleStep3(h: Host)
    ensures StepOk(TwoHandlers(h), StaleStates(h)[3], STALE_MOVES[3], StaleStates(h)[4], true)
  {
  }

  /**
   After a reconnection the first handler's exit takes the second one's entry out of the registry,
   while the second connection is open and its handler is reading.
   */
  lemma StaleExitUnregistersSuccessor(h: Host)
    ensures exists s :: Reachable(TwoHandlers(h), s)
                        && s.pcs.Keys == {0, 1} && s.pcs[1] == ConnRead && 1 !in s.tb.closed && h !in s.tb.conns
  {
    StaleStep0(h);
    StaleStep1(h);
    StaleStep2(h);
    StaleStep3(h);
    assert IsRun(TwoHandlers(h), StaleStates(h), STALE_MOVES, true);
    assert Reachable(TwoHandlers(h), StaleStates(h)[4]);
  }
}
