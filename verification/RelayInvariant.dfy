/** What every interleaving keeps, step by step. */
module RelayInvariant {
  import opened Base
  import opened Relay
  import opened RelayMachine

  // ---- Reading a state ----

  /** Program counters of an AgentHandler before its deferred UnregisterConnection has begun. */
  predicate AttachedPc(pc: Pc)
  {
    || pc.ConnRekey? || pc.ConnRekeyWrite? || pc.ConnRekeyPlain? || pc.ConnRead? || pc.ConnResult? || pc.ConnUnregister?
    || (pc.Settle? && pc.after.ToRead?)
  }

  /** Program counters at which the connection `Victim` has been taken out of the registry. */
  predicate CuttingPc(pc: Pc)
  {
    || pc.Collect? || pc.Resolve? || pc.ConnClose? || pc.ConnDone? || pc.RevClose?
    || (pc.RevDone? && pc.found.Some?) || (pc.Settle? && pc.after.ToResolve?)
  }

  function Victim(g: Gid, pc: Pc): Gid
    requires CuttingPc(pc)
  {
    match pc
    case Collect(v) => v
    case Resolve(v, _) => v
    case RevClose(v) => v
    case RevDone(found) => found.value
    case Settle(_, _, after) => after.victim
    case _ => g
  }

  predicate PcFits(kind: Kind, g: Gid, pc: Pc)
  {
    match kind
    case Requester(_, _) => RequesterPc(pc) && (pc.UnPending? || pc.UnHost? || pc.UnBuffer? ==> !pc.o.Answer?)
    case Handler(_) =>
      pc.ConnRegister? || AttachedPc(pc) || (CuttingPc(pc) && !pc.RevClose? && !pc.RevDone? && Victim(g, pc) == g)
    case Rotator => pc.RotList? || pc.RotNext? || pc.RotWrite? || pc.RotDone?
    case Revoker(_) => pc.RevFind? || pc.RevDone? || (CuttingPc(pc) && !pc.ConnClose? && !pc.ConnDone?)
  }

  /** A request that can pass the online check. */
  ghost predicate IsRequester(k: Kinds, s: State, r: Gid)
  {
    r in k && r in s.pcs && k[r].Requester? && Servable(k, k[r].host)
  }

  /** RegisterFuture has made the channel. */
  predicate Started(pc: Pc)
  {
    !pc.ReqCheck? && !pc.ReqRefused? && !pc.ReqRegister?
  }

  /** RegisterFuture has returned. */
  predicate Registered(pc: Pc)
  {
    Started(pc) && !pc.ReqMapHost?
  }

  /** The request no longer waits for an answer. */
  predicate Over(pc: Pc)
  {
    pc.UnPending? || pc.UnHost? || pc.UnBuffer? || pc.ReqDone?
  }

  /** The connection a request was handed by GetConnection, while it still uses it. */
  function Via(pc: Pc): Option<Gid>
  {
    match pc
    case ReqLock(c) => Some(c)
    case ReqRemap(c) => Some(c)
    case ReqWrite(c) => Some(c)
    case ReqWait(c) => Some(c)
    case _ => None
  }

  /** Something has been put into the channel of r. */
  predicate Filled(tb: Tables, r: Gid)
  {
    r in tb.chans && tb.chans[r].log != []
  }

  ghost predicate Settled(s: State, r: Gid)
    requires r in s.pcs
  {
    Over(s.pcs[r]) || Filled(s.tb, r)
  }

  /** If only one request uses the id t, it has come back from RegisterFuture. */
  ghost predicate Known(k: Kinds, s: State, t: Task)
  {
    Sole(k, t) ==> forall r | IsRequester(k, s, r) && k[r].task == t :: Registered(s.pcs[r])
  }

  /** If only one request uses the id t, it is settled. */
  ghost predicate AllSettled(k: Kinds, s: State, t: Task)
  {
    Sole(k, t) ==> forall r | IsRequester(k, s, r) && k[r].task == t :: Settled(s, r)
  }

  /** The requests through v with an id of their own that are not settled all have it in todo. */
  ghost predicate Cleared(k: Kinds, s: State, v: Gid, todo: set<Task>)
  {
    forall r | IsRequester(k, s, r) && Via(s.pcs[r]) == Some(v) && !Settled(s, r) && Sole(k, k[r].task) ::
      k[r].task in todo
  }

  // ---- The invariant ----

  ghost predicate Typed(k: Kinds, s: State)
  {
    && s.pcs.Keys == k.Keys
    && (forall g | g in k :: PcFits(k[g], g, s.pcs[g]))
  }

  /** Only requests to servable hosts get past the online check. */
  ghost predicate CheckedOk(k: Kinds, s: State)
  {
    forall r | r in k && r in s.pcs && k[r].Requester? && !s.pcs[r].ReqCheck? && !s.pcs[r].ReqRefused? ::
      Servable(k, k[r].host)
  }

  /** Channels exist exactly for the requests that have started. */
  ghost predicate ChansOk(k: Kinds, s: State)
  {
    forall r :: r in s.tb.chans <==> IsRequester(k, s, r) && Started(s.pcs[r])
  }

  /** Channel contents: at most one message until the answer is taken, and the answer is the first. */
  predicate LogFits(t: Task, pc: Pc, ch: Chan)
  {
    && (forall i | 0 <= i < |ch.log| :: ch.log[i].taskID == t)
    && (if pc.ReqDone? && pc.o.Answer? then ch.log != [] && ch.log[0] == pc.o.m
        else ch.log == if ch.buf.Some? then [ch.buf.value] else [])
  }

  ghost predicate LogsOk(k: Kinds, s: State)
  {
    forall r | r in s.tb.chans && IsRequester(k, s, r) :: LogFits(k[r].task, s.pcs[r], s.tb.chans[r])
  }

  ghost predicate PendingOk(k: Kinds, s: State)
  {
    forall t | t in s.tb.pending ::
      var r := s.tb.pending[t];
      && IsRequester(k, s, r) && k[r].task == t && Started(s.pcs[r])
      && !s.pcs[r].UnHost? && !s.pcs[r].UnBuffer? && (s.pcs[r].ReqDone? ==> s.pcs[r].o.Answer?)
  }

  ghost predicate HostsOk(k: Kinds, s: State)
  {
    && (forall t | t in s.tb.hosts :: Known(k, s, t))
    && (forall r | IsRequester(k, s, r) && k[r].task in s.tb.hosts && Sole(k, k[r].task) ::
          s.tb.hosts[k[r].task] == k[r].host)
  }

  ghost predicate SentOk(k: Kinds, s: State)
  {
    forall t | t in s.sent :: Known(k, s, t)
  }

  /** A task id in the hands of a goroutine that settles tasks. */
  ghost predicate SettleOk(k: Kinds, s: State, m: Message, stage: Stage)
  {
    && Known(k, s, m.taskID)
    && (stage.Send? && stage.ch.Some? ==> IsRequester(k, s, stage.ch.value) && k[stage.ch.value].task == m.taskID)
    && ((stage.Send? && stage.ch.None?) || stage.ForgetPending? || stage.ForgetBuffer? || stage.ForgetHost?
        ==> AllSettled(k, s, m.taskID))
    && (stage.ForgetBuffer? || stage.ForgetHost? ==> Sole(k, m.taskID) ==> m.taskID !in s.tb.pending)
  }

  ghost predicate HandOk(k: Kinds, s: State, pc: Pc)
  {
    match pc
    case ConnResult(m) => Known(k, s, m.taskID)
    case Resolve(_, todo) => forall t | t in todo :: Known(k, s, t)
    case Settle(m, stage, after) =>
      && SettleOk(k, s, m, stage)
      && (after.ToResolve? ==> forall t | t in after.todo :: Known(k, s, t))
    case _ => true
  }

  ghost predicate HandsOk(k: Kinds, s: State)
  {
    forall g | g in k && g in s.pcs :: HandOk(k, s, s.pcs[g])
  }

  /** Until it is settled, a request with an id of its own can be found: by its id, and by its host once registered. */
  ghost predicate FindableOk(k: Kinds, s: State)
  {
    forall r | IsRequester(k, s, r) && Started(s.pcs[r]) && !Settled(s, r) && Sole(k, k[r].task) ::
      && k[r].task in s.tb.pending && s.tb.pending[k[r].task] == r
      && (Registered(s.pcs[r]) ==> k[r].task in s.tb.hosts)
  }

  /** A pending id has a host, except inside RegisterFuture. */
  ghost predicate PendingHasHost(k: Kinds, s: State)
  {
    forall t | t in s.tb.pending && Sole(k, t) ::
      t in s.tb.hosts || (s.tb.pending[t] in s.pcs && s.pcs[s.tb.pending[t]].ReqMapHost?)
  }

  /** g is between offering an answer for t and forgetting t. */
  ghost predicate Forgetting(s: State, g: Gid, t: Task)
  {
    g in s.pcs && s.pcs[g].Settle? && s.pcs[g].stage.ForgetPending? && s.pcs[g].m.taskID == t
  }

  /** An answered task stays pending only until the goroutine that answered it forgets it. */
  ghost predicate LeftoverOk(k: Kinds, s: State)
  {
    forall t | t in s.tb.pending && Filled(s.tb, s.tb.pending[t]) :: exists g :: Forgetting(s, g, t)
  }

  /** The registry only holds connections whose handler has not begun to unregister. */
  ghost predicate ConnsOk(k: Kinds, s: State)
  {
    forall h | h in s.tb.conns ::
      var c := s.tb.conns[h];
      c in k && c in s.pcs && k[c] == Handler(h) && AttachedPc(s.pcs[c])
  }

  /** A connection that was cut is out of the registry, and its handler will not register it again. */
  ghost predicate CutOff(k: Kinds, s: State, h: Host, v: Gid)
  {
    && v in k && v in s.pcs && k[v] == Handler(h) && !s.pcs[v].ConnRegister?
    && (forall x | x in s.tb.conns :: s.tb.conns[x] != v)
  }

  ghost predicate VictimsOk(k: Kinds, s: State)
  {
    forall g | g in k && g in s.pcs && CuttingPc(s.pcs[g]) :: CutOff(k, s, HostOf(k[g]), Victim(g, s.pcs[g]))
  }

  /** A request uses a connection of its own host. */
  ghost predicate ViaOk(k: Kinds, s: State)
  {
    forall r | IsRequester(k, s, r) && Via(s.pcs[r]).Some? ::
      var c := Via(s.pcs[r]).value;
      c in k && c in s.pcs && k[c] == Handler(k[r].host) && !s.pcs[c].ConnRegister?
  }

  /** What the goroutine that cut v still has to answer. */
  predicate HasCollected(pc: Pc)
  {
    CuttingPc(pc) && !pc.Collect? && !pc.RevClose?
  }

  function Remaining(pc: Pc): set<Task>
  {
    if pc.Resolve? then pc.todo
    else if pc.Settle? && pc.after.ToResolve? then pc.after.todo + {pc.m.taskID}
    else {}
  }

  ghost predicate ClearedOk(k: Kinds, s: State)
  {
    forall g | g in k && g in s.pcs && HasCollected(s.pcs[g]) ::
      Cleared(k, s, Victim(g, s.pcs[g]), Remaining(s.pcs[g]))
  }

  /** No lock is held twice. */
  ghost predicate Exclusive(k: Kinds, s: State)
  {
    forall g, p | g in k && p in k && g in s.pcs && p in s.pcs && g != p ::
      Holds(k[g], s.pcs[g]) !! Holds(k[p], s.pcs[p])
  }

  ghost predicate Inv(k: Kinds, s: State)
  {
    && Typed(k, s) && CheckedOk(k, s) && ChansOk(k, s) && LogsOk(k, s)
    && PendingOk(k, s) && HostsOk(k, s) && SentOk(k, s)
    && HandsOk(k, s) && FindableOk(k, s) && PendingHasHost(k, s) && LeftoverOk(k, s)
    && ConnsOk(k, s) && VictimsOk(k, s) && ViaOk(k, s) && ClearedOk(k, s) && Exclusive(k, s)
  }

  // ---- One step ----

  /** How the program counter of a request moves on. */
  predicate PhaseStep(pc: Pc, pc': Pc)
  {
    && RequesterPc(pc') && !pc'.ReqCheck?
    && (pc.ReqCheck? <==> pc'.ReqRegister? || pc'.ReqRefused?)
    && (pc.ReqRegister? <==> pc'.ReqMapHost?)
    && (Registered(pc) ==> Registered(pc'))
    && (Over(pc) ==> Over(pc'))
    && (pc.UnPending? <==> pc'.UnHost?)
    && (pc.UnHost? <==> pc'.UnBuffer?)
    && (pc'.UnPending? || pc'.UnHost? || pc'.UnBuffer? ==> !pc'.o.Answer?)
    && (pc'.ReqDone? ==> if pc'.o.Answer? then pc.ReqWait? else pc.UnBuffer?)
  }

  lemma RequestPhase(kind: Kind, g: Gid, pc: Pc, tb: Tables, e: Event)
    requires PcFits(kind, g, pc) && RequesterPc(pc) && !Finished(pc)
    ensures PhaseStep(pc, NextPc(kind, g, pc, tb, e))
  {
  }

  /** s' is s after g has moved to some program counter and done op. */
  ghost predicate Stepped(k: Kinds, s: State, s': State, g: Gid, op: Op)
  {
    && s.pcs.Keys == s'.pcs.Keys == k.Keys
    && g in k && !Finished(s.pcs[g])
    && (forall p | p in s.pcs && p != g :: s'.pcs[p] == s.pcs[p])
    && (k[g].Requester? ==> RequesterPc(s.pcs[g]) && PhaseStep(s.pcs[g], s'.pcs[g]))
    && (k[g].Requester? && !Servable(k, k[g].host) ==> s.pcs[g].ReqCheck? && !Started(s'.pcs[g]))
    && s'.tb == Do(s.tb, op)
  }

  lemma KnownKept(k: Kinds, s: State, s': State, g: Gid, op: Op)
    requires Stepped(k, s, s', g, op)
    ensures forall t :: Known(k, s, t) ==> Known(k, s', t)
  {
  }

  lemma SettledKept(k: Kinds, s: State, s': State, g: Gid, op: Op)
    requires Stepped(k, s, s', g, op)
    requires op.NewFuture? ==> op.g !in s.tb.chans
    ensures forall r | IsRequester(k, s, r) && Settled(s, r) :: Settled(s', r)
  {
  }

  // ---- Which program counter does what, field by field ----

  predicate PendingFacts(kind: Kind, g: Gid, pc: Pc, op: Op)
  {
    && (op.NewFuture? <==> kind.Requester? && pc.ReqRegister?)
    && (op.NewFuture? ==> op == NewFuture(kind.task, g))
    && (op.ForgetPendingOf? ==>
          || (kind.Requester? && pc.UnPending? && op.t == kind.task)
          || (pc.Settle? && pc.stage.ForgetPending? && op.t == pc.m.taskID))
    && (kind.Requester? && pc.UnPending? ==> op.ForgetPendingOf?)
    && (pc.Settle? && pc.stage.ForgetPending? ==> op.ForgetPendingOf?)
  }

  predicate HostFacts(kind: Kind, pc: Pc, op: Op)
  {
    && (op.MapHost? ==> kind.Requester? && (pc.ReqMapHost? || pc.ReqRemap?) && op == MapHost(kind.task, HostOf(kind)))
    && (kind.Requester? && pc.ReqMapHost? ==> op.MapHost?)
    && (op.ForgetHostOf? ==>
          || (kind.Requester? && pc.UnHost? && op.t == kind.task)
          || (pc.Settle? && pc.stage.ForgetHost? && op.t == pc.m.taskID))
  }

  predicate ChanFacts(g: Gid, pc: Pc, pc': Pc, tb: Tables, op: Op)
  {
    && (op.Put? <==> pc.Settle? && pc.stage.Send?)
    && (op.Put? ==> op == Put(pc.stage.ch, pc.m) && pc' == Settle(pc.m, ForgetPending, pc.after))
    && (op.Get? ==> op.g == g && pc.ReqWait? && g in tb.chans && tb.chans[g].buf.Some?
                    && pc' == ReqDone(Answer(tb.chans[g].buf.value)))
    && (pc.ReqWait? && !op.Get? ==> pc' == UnPending(TimedOut))
    && (pc'.ReqDone? && !pc.ReqWait? ==> pc.UnBuffer? && pc'.o == pc.o)
  }

  predicate ConnFacts(kind: Kind, g: Gid, pc: Pc, pc': Pc, op: Op)
  {
    && (op.Connect? ==> op == Connect(HostOf(kind), g) && kind.Handler? && AttachedPc(pc'))
    && (op.Disconnect? ==> op.h == HostOf(kind))
    && (AttachedPc(pc) && !op.Disconnect? ==> AttachedPc(pc'))
  }

  lemma StepPendingFacts(kind: Kind, g: Gid, pc: Pc, e: Event)
    ensures PendingFacts(kind, g, pc, Effect(kind, g, pc, e))
  {
  }

  lemma StepHostFacts(kind: Kind, g: Gid, pc: Pc, e: Event)
    ensures HostFacts(kind, pc, Effect(kind, g, pc, e))
  {
  }

  lemma RequestChanFacts(kind: Kind, g: Gid, pc: Pc, tb: Tables, e: Event)
    requires EventFits(tb, g, pc, e) && !Finished(pc) && RequesterPc(pc)
    ensures ChanFacts(g, pc, NextPc(kind, g, pc, tb, e), tb, Effect(kind, g, pc, e))
  {
  }

  lemma OtherChanFacts(kind: Kind, g: Gid, pc: Pc, tb: Tables, e: Event)
    requires EventFits(tb, g, pc, e) && !RequesterPc(pc)
    ensures ChanFacts(g, pc, NextPc(kind, g, pc, tb, e), tb, Effect(kind, g, pc, e))
  {
  }

  lemma StepChanFacts(kind: Kind, g: Gid, pc: Pc, tb: Tables, e: Event)
    requires EventFits(tb, g, pc, e) && !Finished(pc)
    ensures ChanFacts(g, pc, NextPc(kind, g, pc, tb, e), tb, Effect(kind, g, pc, e))
  {
    if RequesterPc(pc) {
      RequestChanFacts(kind, g, pc, tb, e);
    } else {
      OtherChanFacts(kind, g, pc, tb, e);
    }
  }

  lemma StepConnFacts(kind: Kind, g: Gid, pc: Pc, tb: Tables, e: Event)
    requires PcFits(kind, g, pc) && EventFits(tb, g, pc, e)
    ensures ConnFacts(kind, g, pc, NextPc(kind, g, pc, tb, e), Effect(kind, g, pc, e))
  {
  }

  lemma KeepsChansOk(k: Kinds, s: State, s': State, g: Gid, op: Op)
    requires ChansOk(k, s)
    requires Stepped(k, s, s', g, op) && PendingFacts(k[g], g, s.pcs[g], op)
    ensures ChansOk(k, s')
  {
  }

  /** What a lock section does to one channel. */
  lemma ChanAfter(tb: Tables, op: Op, r: Gid)
    requires r in Do(tb, op).chans
    ensures var ch := Do(tb, op).chans[r];
            || (op.NewFuture? && op.g == r && ch == Chan(None, []))
            || (r in tb.chans && ch == tb.chans[r] && !(op.NewFuture? && op.g == r)
                && !(op.Get? && op.g == r && ch.buf.Some?))
            || (r in tb.chans && op.Get? && op.g == r && ch == tb.chans[r].(buf := None))
            || (r in tb.chans && op.Put? && op.ch == Some(r) && tb.chans[r].buf.None?
                && ch == Chan(Some(op.m), tb.chans[r].log + [op.m]))
  {
  }

  /** A step leaves the channels of other requests alone, or offers a message. */
  lemma OthersChan(k: Kinds, s: State, s': State, g: Gid, op: Op, r: Gid)
    requires r != g && r in s'.tb.chans && s'.tb == Do(s.tb, op)
    requires g in k && g in s.pcs && g in s'.pcs
    requires PendingFacts(k[g], g, s.pcs[g], op) && ChanFacts(g, s.pcs[g], s'.pcs[g], s.tb, op)
    ensures r in s.tb.chans
    ensures s'.tb.chans[r] == s.tb.chans[r]
            || (s.pcs[g].Settle? && s.pcs[g].stage == Send(Some(r)) && s.tb.chans[r].buf.None?
                && s'.tb.chans[r] == Chan(Some(s.pcs[g].m), s.tb.chans[r].log + [s.pcs[g].m]))
  {
    ChanAfter(s.tb, op, r);
  }

  lemma OfferFits(t: Task, pc: Pc, ch: Chan, m: Message)
    requires LogFits(t, pc, ch) && ch.buf.None? && m.taskID == t
    ensures LogFits(t, pc, Chan(Some(m), ch.log + [m]))
  {
  }

  /** The channel of a request other than the one that steps. */
  lemma KeepsOthersLog(k: Kinds, s: State, s': State, g: Gid, op: Op, r: Gid)
    requires ChansOk(k, s) && LogsOk(k, s) && r != g && IsRequester(k, s, r) && r in s'.tb.chans
    requires Stepped(k, s, s', g, op) && PendingFacts(k[g], g, s.pcs[g], op)
    requires ChanFacts(g, s.pcs[g], s'.pcs[g], s.tb, op)
    requires s.pcs[g].Settle? ==> SettleOk(k, s, s.pcs[g].m, s.pcs[g].stage)
    ensures LogFits(k[r].task, s'.pcs[r], s'.tb.chans[r])
  {
    OthersChan(k, s, s', g, op, r);
    assert LogFits(k[r].task, s.pcs[r], s.tb.chans[r]);
    if s'.tb.chans[r] != s.tb.chans[r] {
      OfferFits(k[r].task, s.pcs[r], s.tb.chans[r], s.pcs[g].m);
    }
  }

  /** Its own channel: made, read from, or left alone. */
  lemma KeepsOwnLog(k: Kinds, s: State, s': State, g: Gid, op: Op)
    requires ChansOk(k, s) && LogsOk(k, s) && IsRequester(k, s, g) && g in s'.tb.chans
    requires Stepped(k, s, s', g, op) && PendingFacts(k[g], g, s.pcs[g], op)
    requires ChanFacts(g, s.pcs[g], s'.pcs[g], s.tb, op)
    ensures LogFits(k[g].task, s'.pcs[g], s'.tb.chans[g])
  {
    ChanAfter(s.tb, op, g);
    assert g in s.tb.chans ==> LogFits(k[g].task, s.pcs[g], s.tb.chans[g]);
  }

  lemma KeepsLog(k: Kinds, s: State, s': State, g: Gid, op: Op, r: Gid)
    requires ChansOk(k, s) && LogsOk(k, s)
    requires Stepped(k, s, s', g, op) && PendingFacts(k[g], g, s.pcs[g], op)
    requires ChanFacts(g, s.pcs[g], s'.pcs[g], s.tb, op)
    requires s.pcs[g].Settle? ==> SettleOk(k, s, s.pcs[g].m, s.pcs[g].stage)
    requires r in s'.tb.chans && IsRequester(k, s', r)
    ensures LogFits(k[r].task, s'.pcs[r], s'.tb.chans[r])
  {
    if r == g {
      KeepsOwnLog(k, s, s', g, op);
    } else {
      KeepsOthersLog(k, s, s', g, op, r);
    }
  }

  lemma KeepsLogsOk(k: Kinds, s: State, s': State, g: Gid, op: Op)
    requires ChansOk(k, s) && LogsOk(k, s)
    requires Stepped(k, s, s', g, op) && PendingFacts(k[g], g, s.pcs[g], op)
    requires ChanFacts(g, s.pcs[g], s'.pcs[g], s.tb, op)
    requires s.pcs[g].Settle? ==> SettleOk(k, s, s.pcs[g].m, s.pcs[g].stage)
    ensures LogsOk(k, s')
  {
    forall r | r in s'.tb.chans && IsRequester(k, s', r)
      ensures LogFits(k[r].task, s'.pcs[r], s'.tb.chans[r])
    {
      KeepsLog(k, s, s', g, op, r);
    }
  }

  lemma KeepsPendingOk(k: Kinds, s: State, s': State, g: Gid, op: Op)
    requires PendingOk(k, s)
    requires Stepped(k, s, s', g, op) && PendingFacts(k[g], g, s.pcs[g], op)
    ensures PendingOk(k, s')
  {
  }

  /** A mapped id was mapped before, to the same host, or the request that uses it has just mapped it to its own. */
  lemma HostBefore(k: Kinds, s: State, s': State, g: Gid, op: Op, t: Task)
    requires Stepped(k, s, s', g, op) && HostFacts(k[g], s.pcs[g], op) && t in s'.tb.hosts
    ensures Lookup(s.tb.hosts, t) == Some(s'.tb.hosts[t])
            || (IsRequester(k, s, g) && k[g].task == t && Registered(s'.pcs[g]) && s'.tb.hosts[t] == k[g].host)
  {
  }

  lemma KeepsHostsOk(k: Kinds, s: State, s': State, g: Gid, op: Op)
    requires HostsOk(k, s)
    requires Stepped(k, s, s', g, op) && HostFacts(k[g], s.pcs[g], op)
    ensures HostsOk(k, s')
  {
    KnownKept(k, s, s', g, op);
    forall t | t in s'.tb.hosts
      ensures Known(k, s', t)
      ensures forall r | IsRequester(k, s', r) && k[r].task == t && Sole(k, t) :: s'.tb.hosts[t] == k[r].host
    {
      HostBefore(k, s, s', g, op, t);
    }
  }

  /** A request that is not settled afterwards was not settled before. */
  lemma UnsettledBefore(k: Kinds, s: State, s': State, g: Gid, op: Op, r: Gid)
    requires ChansOk(k, s) && Stepped(k, s, s', g, op) && PendingFacts(k[g], g, s.pcs[g], op)
    requires IsRequester(k, s, r) && !Settled(s', r)
    ensures !Settled(s, r)
  {
    SettledKept(k, s, s', g, op);
  }

  /** Nobody but its owner or the one who settled it takes an id out of pendingTasks, or registers it anew. */
  lemma PendingStays(k: Kinds, s: State, s': State, g: Gid, op: Op, r: Gid)
    requires Stepped(k, s, s', g, op) && PendingFacts(k[g], g, s.pcs[g], op)
    requires s.pcs[g].Settle? ==> SettleOk(k, s, s.pcs[g].m, s.pcs[g].stage)
    requires IsRequester(k, s, r) && Sole(k, k[r].task) && Started(s.pcs[r]) && !Settled(s, r)
    requires Lookup(s.tb.pending, k[r].task) == Some(r)
    ensures Lookup(s'.tb.pending, k[r].task) == Some(r)
  {
    assert !(op.NewFuture? && op.t == k[r].task);
    assert !(op.ForgetPendingOf? && op.t == k[r].task);
  }

  /** The same for taskHostnames. */
  lemma HostStays(k: Kinds, s: State, s': State, g: Gid, op: Op, r: Gid)
    requires Stepped(k, s, s', g, op) && HostFacts(k[g], s.pcs[g], op)
    requires s.pcs[g].Settle? ==> SettleOk(k, s, s.pcs[g].m, s.pcs[g].stage)
    requires IsRequester(k, s, r) && Sole(k, k[r].task) && !Settled(s, r) && k[r].task in s.tb.hosts
    ensures k[r].task in s'.tb.hosts
  {
    assert !(op.ForgetHostOf? && op.t == k[r].task);
  }

  lemma KeepsFindable(k: Kinds, s: State, s': State, g: Gid, op: Op, r: Gid)
    requires ChansOk(k, s) && FindableOk(k, s)
    requires Stepped(k, s, s', g, op) && PendingFacts(k[g], g, s.pcs[g], op) && HostFacts(k[g], s.pcs[g], op)
    requires s.pcs[g].Settle? ==> SettleOk(k, s, s.pcs[g].m, s.pcs[g].stage)
    requires IsRequester(k, s, r) && Started(s'.pcs[r]) && !Settled(s', r) && Sole(k, k[r].task)
    ensures Lookup(s'.tb.pending, k[r].task) == Some(r)
    ensures Registered(s'.pcs[r]) ==> k[r].task in s'.tb.hosts
  {
    if Started(s.pcs[r]) {
      UnsettledBefore(k, s, s', g, op, r);
      PendingStays(k, s, s', g, op, r);
      if Registered(s.pcs[r]) {
        HostStays(k, s, s', g, op, r);
      }
    }
  }

  lemma KeepsFindableOk(k: Kinds, s: State, s': State, g: Gid, op: Op)
    requires ChansOk(k, s) && FindableOk(k, s)
    requires Stepped(k, s, s', g, op) && PendingFacts(k[g], g, s.pcs[g], op) && HostFacts(k[g], s.pcs[g], op)
    requires s.pcs[g].Settle? ==> SettleOk(k, s, s.pcs[g].m, s.pcs[g].stage)
    ensures FindableOk(k, s')
  {
    forall r | IsRequester(k, s', r) && Started(s'.pcs[r]) && !Settled(s', r) && Sole(k, k[r].task)
      ensures k[r].task in s'.tb.pending && s'.tb.pending[k[r].task] == r
      ensures Registered(s'.pcs[r]) ==> k[r].task in s'.tb.hosts
    {
      KeepsFindable(k, s, s', g, op, r);
    }
  }

  /** A pending id was pending before, or its request is inside RegisterFuture. */
  lemma PendingBefore(k: Kinds, s: State, s': State, g: Gid, op: Op, t: Task)
    requires Stepped(k, s, s', g, op) && PendingFacts(k[g], g, s.pcs[g], op) && t in s'.tb.pending
    ensures (s'.tb.pending[t] == g && s'.pcs[g].ReqMapHost?) || Lookup(s.tb.pending, t) == Some(s'.tb.pending[t])
    ensures !(op.ForgetPendingOf? && op.t == t)
  {
  }

  /** A request that gives its host up has given up its place in pendingTasks. */
  lemma HostGivenUpLast(k: Kinds, s: State, s': State, g: Gid, op: Op)
    requires PendingOk(k, s) && Stepped(k, s, s', g, op) && k[g].Requester? && s.pcs[g].UnHost? && Sole(k, k[g].task)
    ensures k[g].task !in s.tb.pending
  {
  }

  /** The host of an id is forgotten after its place in pendingTasks. */
  lemma HostForgottenLast(k: Kinds, s: State, s': State, g: Gid, op: Op)
    requires PendingOk(k, s) && Stepped(k, s, s', g, op) && HostFacts(k[g], s.pcs[g], op) && op.ForgetHostOf?
    requires s.pcs[g].Settle? ==> SettleOk(k, s, s.pcs[g].m, s.pcs[g].stage)
    ensures Sole(k, op.t) ==> op.t !in s.tb.pending
  {
    if k[g].Requester? && Sole(k, op.t) {
      HostGivenUpLast(k, s, s', g, op);
    }
  }

  lemma HostKept(tb: Tables, op: Op, t: Task)
    requires t in tb.hosts && !(op.ForgetHostOf? && op.t == t)
    ensures t in Do(tb, op).hosts
  {
  }

  /** A pending id without a host gets it from its request, or its request has not gone on yet. */
  lemma HostComes(k: Kinds, s: State, s': State, g: Gid, op: Op, t: Task)
    requires PendingOk(k, s) && Stepped(k, s, s', g, op) && HostFacts(k[g], s.pcs[g], op)
    requires t in s.tb.pending && s.pcs[s.tb.pending[t]].ReqMapHost?
    ensures t in s'.tb.hosts || s'.pcs[s.tb.pending[t]].ReqMapHost?
  {
  }

  lemma KeepsHostOfPending(k: Kinds, s: State, s': State, g: Gid, op: Op, t: Task)
    requires PendingOk(k, s) && PendingHasHost(k, s)
    requires Stepped(k, s, s', g, op) && PendingFacts(k[g], g, s.pcs[g], op) && HostFacts(k[g], s.pcs[g], op)
    requires op.ForgetHostOf? && Sole(k, op.t) ==> op.t !in s.tb.pending
    requires t in s'.tb.pending && Sole(k, t)
    ensures t in s'.tb.hosts || (s'.tb.pending[t] in s'.pcs && s'.pcs[s'.tb.pending[t]].ReqMapHost?)
  {
    PendingBefore(k, s, s', g, op, t);
    if t in s.tb.pending {
      if t in s.tb.hosts {
        HostKept(s.tb, op, t);
      } else {
        HostComes(k, s, s', g, op, t);
      }
    }
  }

  lemma KeepsPendingHasHost(k: Kinds, s: State, s': State, g: Gid, op: Op)
    requires PendingOk(k, s) && PendingHasHost(k, s)
    requires Stepped(k, s, s', g, op) && PendingFacts(k[g], g, s.pcs[g], op) && HostFacts(k[g], s.pcs[g], op)
    requires s.pcs[g].Settle? ==> SettleOk(k, s, s.pcs[g].m, s.pcs[g].stage)
    ensures PendingHasHost(k, s')
  {
    if op.ForgetHostOf? {
      HostForgottenLast(k, s, s', g, op);
    }
    forall t | t in s'.tb.pending && Sole(k, t)
      ensures t in s'.tb.hosts || (s'.tb.pending[t] in s'.pcs && s'.pcs[s'.tb.pending[t]].ReqMapHost?)
    {
      KeepsHostOfPending(k, s, s', g, op, t);
    }
  }

  /** A full channel was just filled, or was full before. */
  lemma FullBefore(k: Kinds, s: State, s': State, g: Gid, op: Op, t: Task)
    requires ChansOk(k, s) && PendingOk(k, s)
    requires Stepped(k, s, s', g, op) && PendingFacts(k[g], g, s.pcs[g], op)
    requires op.Put? && op.ch.Some? ==>
               op.ch.value in k && k[op.ch.value].Requester? && k[op.ch.value].task == op.m.taskID
    requires t in s'.tb.pending && Filled(s'.tb, s'.tb.pending[t])
    ensures (op.Put? && t == op.m.taskID) || (t in s.tb.pending && Filled(s.tb, s.tb.pending[t]))
    ensures !(op.ForgetPendingOf? && op.t == t)
  {
  }

  /** Forgetting goes on until the step that forgets. */
  lemma ForgettingStays(k: Kinds, s: State, s': State, g: Gid, op: Op, p: Gid, t: Task)
    requires Stepped(k, s, s', g, op) && PendingFacts(k[g], g, s.pcs[g], op)
    requires Forgetting(s, p, t) && !(op.ForgetPendingOf? && op.t == t)
    ensures Forgetting(s', p, t)
  {
  }

  lemma KeepsLeftoverOk(k: Kinds, s: State, s': State, g: Gid, op: Op)
    requires ChansOk(k, s) && PendingOk(k, s) && LeftoverOk(k, s)
    requires Stepped(k, s, s', g, op) && PendingFacts(k[g], g, s.pcs[g], op)
    requires ChanFacts(g, s.pcs[g], s'.pcs[g], s.tb, op)
    requires s.pcs[g].Settle? ==> SettleOk(k, s, s.pcs[g].m, s.pcs[g].stage)
    ensures LeftoverOk(k, s')
  {
    forall t | t in s'.tb.pending && Filled(s'.tb, s'.tb.pending[t])
      ensures exists p :: Forgetting(s', p, t)
    {
      FullBefore(k, s, s', g, op, t);
      if op.Put? && t == op.m.taskID {
        assert Forgetting(s', g, t);
      } else {
        var p :| Forgetting(s, p, t);
        ForgettingStays(k, s, s', g, op, p, t);
      }
    }
  }

  lemma KeepsConnsOk(k: Kinds, s: State, s': State, g: Gid, op: Op)
    requires Typed(k, s) && ConnsOk(k, s)
    requires Stepped(k, s, s', g, op) && ConnFacts(k[g], g, s.pcs[g], s'.pcs[g], op)
    ensures ConnsOk(k, s')
  {
  }

  // ---- Types, sent ids ----

  predicate SharedPc(pc: Pc)
  {
    pc.Collect? || pc.Resolve? || pc.Settle?
  }

  lemma NextRequestFits(kind: Kind, g: Gid, pc: Pc, tb: Tables, e: Event)
    requires PcFits(kind, g, pc) && EventFits(tb, g, pc, e) && RequesterPc(pc)
    ensures PcFits(kind, g, NextPc(kind, g, pc, tb, e)) && !NextPc(kind, g, pc, tb, e).ConnRegister?
  {
  }

  lemma NextSharedFits(kind: Kind, g: Gid, pc: Pc, tb: Tables, e: Event)
    requires PcFits(kind, g, pc) && EventFits(tb, g, pc, e) && SharedPc(pc)
    ensures PcFits(kind, g, NextPc(kind, g, pc, tb, e)) && !NextPc(kind, g, pc, tb, e).ConnRegister?
  {
  }

  lemma NextConnectionFits(kind: Kind, g: Gid, pc: Pc, tb: Tables, e: Event)
    requires PcFits(kind, g, pc) && EventFits(tb, g, pc, e) && !RequesterPc(pc) && !SharedPc(pc)
    ensures PcFits(kind, g, NextPc(kind, g, pc, tb, e)) && !NextPc(kind, g, pc, tb, e).ConnRegister?
  {
  }

  lemma NextFits(kind: Kind, g: Gid, pc: Pc, tb: Tables, e: Event)
    requires PcFits(kind, g, pc) && EventFits(tb, g, pc, e)
    ensures PcFits(kind, g, NextPc(kind, g, pc, tb, e)) && !NextPc(kind, g, pc, tb, e).ConnRegister?
  {
    if RequesterPc(pc) {
      NextRequestFits(kind, g, pc, tb, e);
    } else if SharedPc(pc) {
      NextSharedFits(kind, g, pc, tb, e);
    } else {
      NextConnectionFits(kind, g, pc, tb, e);
    }
  }

  lemma KeepsSentOk(k: Kinds, s: State, s': State, g: Gid, op: Op)
    requires SentOk(k, s) && Stepped(k, s, s', g, op)
    requires s'.sent == s.sent || (k[g].Requester? && s.pcs[g].ReqWrite? && s'.sent == s.sent + {k[g].task})
    ensures SentOk(k, s')
  {
    KnownKept(k, s, s', g, op);
  }

  // ---- Task ids in hand ----

  /** What a goroutine knows about the task in its hands is not undone by the others. */
  lemma HandStable(k: Kinds, s: State, s': State, g: Gid, op: Op, pc: Pc)
    requires Stepped(k, s, s', g, op) && PendingFacts(k[g], g, s.pcs[g], op)
    requires ChansOk(k, s) && HandOk(k, s, pc)
    ensures HandOk(k, s', pc)
  {
    KnownKept(k, s, s', g, op);
    SettledKept(k, s, s', g, op);
  }

  /** A task id that has been looked up and not found is settled. */
  lemma NotPendingIsSettled(k: Kinds, s: State, t: Task)
    requires FindableOk(k, s) && Known(k, s, t) && t !in s.tb.pending
    ensures AllSettled(k, s, t)
  {
  }

  lemma HandOfConnection(k: Kinds, s: State, g: Gid, e: Event)
    requires g in k && g in s.pcs && HandOk(k, s, s.pcs[g]) && SentOk(k, s) && Honest(k, s, e)
    requires !RequesterPc(s.pcs[g]) && !s.pcs[g].Collect? && !s.pcs[g].Resolve? && !s.pcs[g].Settle?
    requires EventFits(s.tb, g, s.pcs[g], e)
    ensures HandOk(k, s, NextPc(k[g], g, s.pcs[g], s.tb, e))
  {
    assert forall r | IsRequester(k, s, r) :: k[r].task in TasksInUse(k);
  }

  lemma RequestHand(k: Kinds, s: State, g: Gid, e: Event)
    requires g in k && g in s.pcs && RequesterPc(s.pcs[g])
    ensures HandOk(k, s, NextPc(k[g], g, s.pcs[g], s.tb, e))
  {
    assert RequesterPc(NextPc(k[g], g, s.pcs[g], s.tb, e));
  }

  lemma HandOfResolve(k: Kinds, s: State, g: Gid, e: Event)
    requires g in k && g in s.pcs && HandOk(k, s, s.pcs[g]) && HostsOk(k, s)
    requires s.pcs[g].Collect? || s.pcs[g].Resolve?
    requires EventFits(s.tb, g, s.pcs[g], e)
    ensures HandOk(k, s, NextPc(k[g], g, s.pcs[g], s.tb, e))
  {
  }

  /** After the non-blocking send the channel has had a message, whether this one or an earlier one. */
  lemma OfferSettles(k: Kinds, s: State, s': State, m: Message, ch: Option<Gid>)
    requires ChansOk(k, s) && LogsOk(k, s) && SettleOk(k, s, m, Send(ch))
    requires s'.tb == Offer(s.tb, ch, m) && s'.pcs.Keys == s.pcs.Keys
    requires forall r | r in s.pcs && Over(s.pcs[r]) :: Over(s'.pcs[r])
    ensures AllSettled(k, s', m.taskID)
  {
    forall r | Sole(k, m.taskID) && IsRequester(k, s', r) && k[r].task == m.taskID ensures Settled(s', r) {
      if ch.Some? {
        assert r == ch.value;
        assert LogFits(k[r].task, s.pcs[r], s.tb.chans[r]);
      } else {
        assert Settled(s, r);
      }
    }
  }

  lemma HandOfSettle(k: Kinds, s: State, s': State, g: Gid, op: Op, m: Message, stage: Stage, after: After)
    requires ChansOk(k, s) && LogsOk(k, s) && PendingOk(k, s) && FindableOk(k, s)
    requires Stepped(k, s, s', g, op) && PendingFacts(k[g], g, s.pcs[g], op)
    requires s.pcs[g] == Settle(m, stage, after) && HandOk(k, s, s.pcs[g])
    requires op == Effect(k[g], g, s.pcs[g], Tick)
    ensures HandOk(k, s', NextShared(k[g], s.pcs[g], s.tb, Tick))
  {
    HandStable(k, s, s', g, op, s.pcs[g]);
    match stage
    case LookUp =>
      if m.taskID !in s.tb.pending {
        NotPendingIsSettled(k, s, m.taskID);
        SettledKept(k, s, s', g, op);
      }
    case Send(ch) => OfferSettles(k, s, s', m, ch);
    case _ =>
  }

  // ---- Connections that have been cut ----

  lemma CutOffStable(k: Kinds, s: State, s': State, g: Gid, op: Op, h: Host, v: Gid)
    requires Stepped(k, s, s', g, op) && ConnFacts(k[g], g, s.pcs[g], s'.pcs[g], op)
    requires !s'.pcs[g].ConnRegister? && (op.Connect? ==> s.pcs[g].ConnRegister?)
    requires CutOff(k, s, h, v)
    ensures CutOff(k, s', h, v)
  {
  }

  lemma VictimStays(kind: Kind, g: Gid, pc: Pc, tb: Tables, e: Event)
    requires PcFits(kind, g, pc) && EventFits(tb, g, pc, e) && !Finished(pc) && CuttingPc(pc)
    ensures var pc' := NextPc(kind, g, pc, tb, e); CuttingPc(pc') && Victim(g, pc') == Victim(g, pc)
    ensures Effect(kind, g, pc, e) == Nothing || !Effect(kind, g, pc, e).Connect?
  {
  }

  lemma VictimChosen(kind: Kind, g: Gid, pc: Pc, tb: Tables, e: Event)
    requires PcFits(kind, g, pc) && EventFits(tb, g, pc, e) && !CuttingPc(pc)
    requires CuttingPc(NextPc(kind, g, pc, tb, e)) && !Finished(pc)
    ensures var v := Victim(g, NextPc(kind, g, pc, tb, e));
            || (pc.ConnUnregister? && v == g)
            || (pc.RevFind? && HostOf(kind) in tb.conns && v == tb.conns[HostOf(kind)])
    ensures Effect(kind, g, pc, e) == Disconnect(HostOf(kind))
    ensures !HasCollected(NextPc(kind, g, pc, tb, e))
  {
  }

  lemma OwnVictim(k: Kinds, s: State, s': State, g: Gid, e: Event)
    requires Typed(k, s) && ConnsOk(k, s) && g in k && EventFits(s.tb, g, s.pcs[g], e) && !Finished(s.pcs[g])
    requires Stepped(k, s, s', g, Effect(k[g], g, s.pcs[g], e))
    requires s'.pcs[g] == NextPc(k[g], g, s.pcs[g], s.tb, e) && !s'.pcs[g].ConnRegister?
    requires !CuttingPc(s.pcs[g]) && CuttingPc(s'.pcs[g])
    ensures CutOff(k, s', HostOf(k[g]), Victim(g, s'.pcs[g]))
  {
    VictimChosen(k[g], g, s.pcs[g], s.tb, e);
  }

  /** Where a request's connection comes from: it had it, or it has just found it in the table. */
  lemma ViaBefore(kind: Kind, g: Gid, pc: Pc, tb: Tables, e: Event)
    requires kind.Requester? && RequesterPc(pc) && Via(NextPc(kind, g, pc, tb, e)).Some?
    ensures var c := Via(NextPc(kind, g, pc, tb, e));
            Via(pc) == c || (HostOf(kind) in tb.conns && c == Some(tb.conns[HostOf(kind)]))
  {
  }

  lemma OwnVia(k: Kinds, s: State, g: Gid, e: Event)
    requires ConnsOk(k, s) && ViaOk(k, s) && IsRequester(k, s, g) && RequesterPc(s.pcs[g])
    requires Via(NextPc(k[g], g, s.pcs[g], s.tb, e)).Some?
    ensures var c := Via(NextPc(k[g], g, s.pcs[g], s.tb, e)).value;
            c in k && c in s.pcs && k[c] == Handler(k[g].host) && !s.pcs[c].ConnRegister?
  {
    ViaBefore(k[g], g, s.pcs[g], s.tb, e);
  }

  lemma KeepsViaOk(k: Kinds, s: State, s': State, g: Gid, op: Op, e: Event)
    requires Typed(k, s) && ConnsOk(k, s) && ViaOk(k, s) && Stepped(k, s, s', g, op)
    requires s'.pcs[g] == NextPc(k[g], g, s.pcs[g], s.tb, e) && EventFits(s.tb, g, s.pcs[g], e)
    requires !s'.pcs[g].ConnRegister?
    ensures ViaOk(k, s')
  {
    forall r | IsRequester(k, s', r) && Via(s'.pcs[r]).Some?
      ensures var c := Via(s'.pcs[r]).value;
              c in k && c in s'.pcs && k[c] == Handler(k[r].host) && !s'.pcs[c].ConnRegister?
    {
      if r == g {
        OwnVia(k, s, g, e);
      }
    }
  }

  /** No new request can get hold of a connection that has been cut. */
  lemma ClearedStable(k: Kinds, s: State, s': State, g: Gid, op: Op, e: Event, h: Host, v: Gid, todo: set<Task>)
    requires Stepped(k, s, s', g, op) && PendingFacts(k[g], g, s.pcs[g], op)
    requires ChansOk(k, s) && CutOff(k, s, h, v) && Cleared(k, s, v, todo)
    requires s'.pcs[g] == NextPc(k[g], g, s.pcs[g], s.tb, e)
    ensures Cleared(k, s', v, todo)
  {
    SettledKept(k, s, s', g, op);
    forall r | IsRequester(k, s', r) && Via(s'.pcs[r]) == Some(v) && !Settled(s', r) && Sole(k, k[r].task)
      ensures k[r].task in todo
    {
      if r == g {
        assert Via(s.pcs[g]) == Some(v);
      }
    }
  }

  /** Collecting finds every request that is still waiting on the connection that was cut. */
  lemma CollectFindsAll(k: Kinds, s: State, h: Host, v: Gid)
    requires HostsOk(k, s) && FindableOk(k, s) && ViaOk(k, s) && CutOff(k, s, h, v)
    ensures Cleared(k, s, v, TasksOf(s.tb, h))
  {
  }

  lemma OwnCleared(k: Kinds, s: State, g: Gid, e: Event)
    requires g in k && g in s.pcs && PcFits(k[g], g, s.pcs[g]) && EventFits(s.tb, g, s.pcs[g], e) && !Finished(s.pcs[g])
    requires HasCollected(s.pcs[g]) && Cleared(k, s, Victim(g, s.pcs[g]), Remaining(s.pcs[g]))
    requires s.pcs[g].Settle? && s.pcs[g].stage.ForgetHost? ==> AllSettled(k, s, s.pcs[g].m.taskID)
    ensures Cleared(k, s, Victim(g, s.pcs[g]), Remaining(NextPc(k[g], g, s.pcs[g], s.tb, e)))
  {
  }

  // ---- Locks ----

  /** What is held after a step was held before it, or is acquired by it. */
  ghost predicate HeldBefore(kind: Kind, g: Gid, pc: Pc, pc': Pc)
  {
    forall l | l in Holds(kind, pc') :: l in Holds(kind, pc) || Wants(g, pc) == Some(l)
  }

  lemma RequestHolds(kind: Kind, g: Gid, pc: Pc, tb: Tables, e: Event)
    requires RequesterPc(pc)
    ensures HeldBefore(kind, g, pc, NextPc(kind, g, pc, tb, e))
  {
  }

  lemma SharedHolds(kind: Kind, g: Gid, pc: Pc, tb: Tables, e: Event)
    requires PcFits(kind, g, pc) && SharedPc(pc)
    ensures HeldBefore(kind, g, pc, NextPc(kind, g, pc, tb, e))
  {
  }

  lemma ConnectionHolds(kind: Kind, g: Gid, pc: Pc, tb: Tables, e: Event)
    requires PcFits(kind, g, pc) && !RequesterPc(pc) && !SharedPc(pc)
    ensures HeldBefore(kind, g, pc, NextPc(kind, g, pc, tb, e))
  {
  }

  lemma HoldsAfter(kind: Kind, g: Gid, pc: Pc, tb: Tables, e: Event)
    requires PcFits(kind, g, pc)
    ensures HeldBefore(kind, g, pc, NextPc(kind, g, pc, tb, e))
  {
    if RequesterPc(pc) {
      RequestHolds(kind, g, pc, tb, e);
    } else if SharedPc(pc) {
      SharedHolds(kind, g, pc, tb, e);
    } else {
      ConnectionHolds(kind, g, pc, tb, e);
    }
  }

  // ---- Putting the step together ----

  lemma StepIs(k: Kinds, s: State, g: Gid, e: Event)
    requires Typed(k, s) && CheckedOk(k, s) && g in k && !Finished(s.pcs[g]) && EventFits(s.tb, g, s.pcs[g], e)
    ensures Stepped(k, s, Apply(k, s, g, e), g, Effect(k[g], g, s.pcs[g], e))
  {
    if k[g].Requester? {
      RequestPhase(k[g], g, s.pcs[g], s.tb, e);
    }
  }

  lemma StepTyped(k: Kinds, s: State, g: Gid, e: Event)
    requires Typed(k, s) && g in k && EventFits(s.tb, g, s.pcs[g], e)
    ensures Typed(k, Apply(k, s, g, e))
  {
    NextFits(k[g], g, s.pcs[g], s.tb, e);
  }

  /** The channels, and what is still pending of them. */
  lemma StepChannels(k: Kinds, s: State, g: Gid, e: Event)
    requires Typed(k, s) && CheckedOk(k, s) && ChansOk(k, s) && LogsOk(k, s) && PendingOk(k, s) && LeftoverOk(k, s)
    requires HandsOk(k, s) && Enabled(k, s, g, e)
    ensures var s' := Apply(k, s, g, e); ChansOk(k, s') && LogsOk(k, s') && PendingOk(k, s') && LeftoverOk(k, s')
  {
    var s', op := Apply(k, s, g, e), Effect(k[g], g, s.pcs[g], e);
    StepIs(k, s, g, e);
    StepPendingFacts(k[g], g, s.pcs[g], e);
    StepChanFacts(k[g], g, s.pcs[g], s.tb, e);
    assert HandOk(k, s, s.pcs[g]);
    KeepsChansOk(k, s, s', g, op);
    KeepsLogsOk(k, s, s', g, op);
    KeepsPendingOk(k, s, s', g, op);
    KeepsLeftoverOk(k, s, s', g, op);
  }

  /** The maps by which a request is found. */
  lemma StepMaps(k: Kinds, s: State, g: Gid, e: Event)
    requires Typed(k, s) && CheckedOk(k, s) && ChansOk(k, s) && PendingOk(k, s) && HostsOk(k, s) && SentOk(k, s)
    requires FindableOk(k, s) && PendingHasHost(k, s) && HandsOk(k, s) && Enabled(k, s, g, e)
    ensures var s' := Apply(k, s, g, e); HostsOk(k, s') && SentOk(k, s') && FindableOk(k, s') && PendingHasHost(k, s')
  {
    var s', op := Apply(k, s, g, e), Effect(k[g], g, s.pcs[g], e);
    StepIs(k, s, g, e);
    StepPendingFacts(k[g], g, s.pcs[g], e);
    StepHostFacts(k[g], g, s.pcs[g], e);
    assert HandOk(k, s, s.pcs[g]);
    KeepsHostsOk(k, s, s', g, op);
    KeepsSentOk(k, s, s', g, op);
    KeepsFindableOk(k, s, s', g, op);
    KeepsPendingHasHost(k, s, s', g, op);
  }

  /** A hand not taken up by settling is as it should be before the effects of the step. */
  lemma OwnHandBefore(k: Kinds, s: State, s': State, g: Gid, op: Op, e: Event)
    requires HostsOk(k, s) && SentOk(k, s) && Stepped(k, s, s', g, op) && HandOk(k, s, s.pcs[g])
    requires s'.pcs[g] == NextPc(k[g], g, s.pcs[g], s.tb, e) && !s.pcs[g].Settle?
    requires Honest(k, s, e) && EventFits(s.tb, g, s.pcs[g], e)
    ensures HandOk(k, s, s'.pcs[g])
  {
    if SharedPc(s.pcs[g]) {
      HandOfResolve(k, s, g, e);
    } else if RequesterPc(s.pcs[g]) {
      RequestHand(k, s, g, e);
    } else {
      HandOfConnection(k, s, g, e);
    }
  }

  /** What the goroutine that steps holds in its hands afterwards. */
  lemma OwnHand(k: Kinds, s: State, s': State, g: Gid, op: Op, e: Event)
    requires ChansOk(k, s) && LogsOk(k, s) && PendingOk(k, s) && HostsOk(k, s) && SentOk(k, s) && FindableOk(k, s)
    requires Stepped(k, s, s', g, op) && PendingFacts(k[g], g, s.pcs[g], op) && HandOk(k, s, s.pcs[g])
    requires op == Effect(k[g], g, s.pcs[g], e) && s'.pcs[g] == NextPc(k[g], g, s.pcs[g], s.tb, e)
    requires Honest(k, s, e) && EventFits(s.tb, g, s.pcs[g], e)
    ensures HandOk(k, s', s'.pcs[g])
  {
    if s.pcs[g].Settle? {
      HandOfSettle(k, s, s', g, op, s.pcs[g].m, s.pcs[g].stage, s.pcs[g].after);
    } else {
      OwnHandBefore(k, s, s', g, op, e);
      HandStable(k, s, s', g, op, s'.pcs[g]);
    }
  }

  lemma StepHands(k: Kinds, s: State, g: Gid, e: Event)
    requires Typed(k, s) && CheckedOk(k, s) && ChansOk(k, s) && LogsOk(k, s) && PendingOk(k, s) && HostsOk(k, s)
    requires SentOk(k, s) && HandsOk(k, s) && FindableOk(k, s) && Enabled(k, s, g, e)
    ensures HandsOk(k, Apply(k, s, g, e))
  {
    var s', op := Apply(k, s, g, e), Effect(k[g], g, s.pcs[g], e);
    StepIs(k, s, g, e);
    StepPendingFacts(k[g], g, s.pcs[g], e);
    forall p | p in k && p in s'.pcs ensures HandOk(k, s', s'.pcs[p]) {
      if p != g {
        HandStable(k, s, s', g, op, s.pcs[p]);
      } else {
        OwnHand(k, s, s', g, op, e);
      }
    }
  }

  lemma StepConnections(k: Kinds, s: State, g: Gid, e: Event)
    requires Typed(k, s) && CheckedOk(k, s) && ConnsOk(k, s) && ViaOk(k, s) && Enabled(k, s, g, e)
    ensures ConnsOk(k, Apply(k, s, g, e)) && ViaOk(k, Apply(k, s, g, e))
  {
    var s', op := Apply(k, s, g, e), Effect(k[g], g, s.pcs[g], e);
    StepIs(k, s, g, e);
    NextFits(k[g], g, s.pcs[g], s.tb, e);
    StepConnFacts(k[g], g, s.pcs[g], s.tb, e);
    KeepsConnsOk(k, s, s', g, op);
    KeepsViaOk(k, s, s', g, op, e);
  }

  lemma StepVictims(k: Kinds, s: State, g: Gid, e: Event)
    requires Typed(k, s) && CheckedOk(k, s) && ConnsOk(k, s) && VictimsOk(k, s) && Enabled(k, s, g, e)
    ensures VictimsOk(k, Apply(k, s, g, e))
  {
    var s', op := Apply(k, s, g, e), Effect(k[g], g, s.pcs[g], e);
    StepIs(k, s, g, e);
    NextFits(k[g], g, s.pcs[g], s.tb, e);
    StepConnFacts(k[g], g, s.pcs[g], s.tb, e);
    forall p | p in k && p in s'.pcs && CuttingPc(s'.pcs[p]) ensures CutOff(k, s', HostOf(k[p]), Victim(p, s'.pcs[p])) {
      if p != g || CuttingPc(s.pcs[g]) {
        if p == g {
          VictimStays(k[g], g, s.pcs[g], s.tb, e);
        }
        CutOffStable(k, s, s', g, op, HostOf(k[p]), Victim(p, s.pcs[p]));
      } else {
        OwnVictim(k, s, s', g, e);
      }
    }
  }

  /** What the stepping goroutine has still to answer, before the effects of its step. */
  lemma OwnRemaining(k: Kinds, s: State, g: Gid, e: Event)
    requires Typed(k, s) && HostsOk(k, s) && FindableOk(k, s) && ViaOk(k, s) && ClearedOk(k, s) && VictimsOk(k, s)
    requires g in k && HandOk(k, s, s.pcs[g]) && EventFits(s.tb, g, s.pcs[g], e) && !Finished(s.pcs[g])
    requires HasCollected(NextPc(k[g], g, s.pcs[g], s.tb, e))
    ensures var pc' := NextPc(k[g], g, s.pcs[g], s.tb, e);
            && CuttingPc(s.pcs[g]) && Cleared(k, s, Victim(g, pc'), Remaining(pc'))
            && CutOff(k, s, HostOf(k[g]), Victim(g, pc'))
  {
    if !CuttingPc(s.pcs[g]) {
      VictimChosen(k[g], g, s.pcs[g], s.tb, e);
    } else {
      VictimStays(k[g], g, s.pcs[g], s.tb, e);
      if s.pcs[g].Collect? {
        CollectFindsAll(k, s, HostOf(k[g]), Victim(g, s.pcs[g]));
      } else {
        OwnCleared(k, s, g, e);
      }
    }
  }

  lemma StepCleared(k: Kinds, s: State, g: Gid, e: Event)
    requires Typed(k, s) && CheckedOk(k, s) && ChansOk(k, s) && HostsOk(k, s) && FindableOk(k, s) && HandsOk(k, s)
    requires VictimsOk(k, s) && ViaOk(k, s) && ClearedOk(k, s) && Enabled(k, s, g, e)
    ensures ClearedOk(k, Apply(k, s, g, e))
  {
    var s', op := Apply(k, s, g, e), Effect(k[g], g, s.pcs[g], e);
    StepIs(k, s, g, e);
    StepPendingFacts(k[g], g, s.pcs[g], e);
    forall p | p in k && p in s'.pcs && HasCollected(s'.pcs[p])
      ensures Cleared(k, s', Victim(p, s'.pcs[p]), Remaining(s'.pcs[p]))
    {
      if p == g {
        OwnRemaining(k, s, g, e);
      }
      ClearedStable(k, s, s', g, op, e, HostOf(k[p]), Victim(p, s'.pcs[p]), Remaining(s'.pcs[p]));
    }
  }

  lemma StepExclusive(k: Kinds, s: State, g: Gid, e: Event)
    requires Typed(k, s) && Exclusive(k, s) && Enabled(k, s, g, e)
    ensures Exclusive(k, Apply(k, s, g, e))
  {
    var s' := Apply(k, s, g, e);
    HoldsAfter(k[g], g, s.pcs[g], s.tb, e);
    forall p | p in k && p in s'.pcs && p != g
      ensures Holds(k[g], s'.pcs[g]) !! Holds(k[p], s'.pcs[p])
    {
      assert s'.pcs[p] == s.pcs[p];
      assert Holds(k[g], s.pcs[g]) !! Holds(k[p], s.pcs[p]);
    }
  }

  /** A request passes the online check only if its host has a connection, and so a handler. */
  lemma StepChecked(k: Kinds, s: State, g: Gid, e: Event)
    requires Typed(k, s) && CheckedOk(k, s) && ConnsOk(k, s) && Enabled(k, s, g, e)
    ensures CheckedOk(k, Apply(k, s, g, e))
  {
    var s' := Apply(k, s, g, e);
    forall r | r in k && r in s'.pcs && k[r].Requester? && !s'.pcs[r].ReqCheck? && !s'.pcs[r].ReqRefused?
      ensures Servable(k, k[r].host)
    {
      if r == g && s.pcs[g].ReqCheck? {
        assert k[s.tb.conns[k[r].host]] == Handler(k[r].host);
      }
    }
  }

  /** Every step of every goroutine keeps the invariant. */
  lemma StepInv(k: Kinds, s: State, g: Gid, e: Event)
    requires Inv(k, s) && Enabled(k, s, g, e)
    ensures Inv(k, Apply(k, s, g, e))
  {
    StepTyped(k, s, g, e);
    StepChecked(k, s, g, e);
    StepChannels(k, s, g, e);
    StepMaps(k, s, g, e);
    StepHands(k, s, g, e);
    StepConnections(k, s, g, e);
    StepVictims(k, s, g, e);
    StepCleared(k, s, g, e);
    StepExclusive(k, s, g, e);
  }

  lemma InitTables(k: Kinds)
    ensures var s := Init(k);
            && Typed(k, s) && CheckedOk(k, s) && ChansOk(k, s) && LogsOk(k, s) && PendingOk(k, s) && HostsOk(k, s)
            && SentOk(k, s) && FindableOk(k, s) && PendingHasHost(k, s) && LeftoverOk(k, s)
  {
  }

  lemma InitGoroutines(k: Kinds)
    ensures var s := Init(k);
            && HandsOk(k, s) && ConnsOk(k, s) && VictimsOk(k, s) && ViaOk(k, s) && ClearedOk(k, s)
  {
  }

  lemma InitExclusive(k: Kinds)
    ensures Exclusive(k, Init(k))
  {
  }

  lemma InitInv(k: Kinds)
    ensures Inv(k, Init(k))
  {
    InitTables(k);
    InitGoroutines(k);
    InitExclusive(k);
  }

  lemma MoveInv(k: Kinds, s: State, m: Move, s': State)
    requires StepOk(k, s, m, s', true) && Inv(k, s)
    ensures Inv(k, s')
  {
    StepInv(k, s, m.g, m.e);
  }

  lemma NthMoveInv(k: Kinds, states: seq<State>, moves: seq<Move>, n: nat)
    requires IsRun(k, states, moves, true) && n < |moves| && Inv(k, states[n])
    ensures Inv(k, states[n + 1])
  {
    MoveInv(k, states[n], moves[n], states[n + 1]);
  }

  lemma {:induction false} RunInv(k: Kinds, states: seq<State>, moves: seq<Move>, n: nat)
    requires IsRun(k, states, moves, true) && Inv(k, states[0]) && n <= |moves|
    ensures Inv(k, states[n])
  {
    if n > 0 {
      RunInv(k, states, moves, n - 1);
      NthMoveInv(k, states, moves, n - 1);
    }
  }

  /** The invariant holds in every state of every interleaving. */
  lemma ReachableInv(k: Kinds, s: State)
    requires Reachable(k, s)
    ensures Inv(k, s)
  {
    var states, moves :| IsRun(k, states, moves, true) && states[0] == Init(k) && states[|moves|] == s;
    InitInv(k);
    RunInv(k, states, moves, |moves|);
  }
}
