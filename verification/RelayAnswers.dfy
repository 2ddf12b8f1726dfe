/**
 Where answers come from. In every interleaving a message in a waiter's channel is a "result" that a
 handler read for the task, with its rc, stderr and error as they were read and with the stdout that was
 streamed before it if it had none, or the error of a disconnect or a revoke.
 */
module RelayAnswers {
  import opened Base
  import opened Relay
  import opened RelayMachine
  import opened RelayInvariant
  import opened RelayTheorems
  import opened StdoutBuffer

  /** states and moves are an interleaving from scratch. */
  ghost predicate FromScratch(k: Kinds, states: seq<State>, moves: seq<Move>, honest: bool)
  {
    IsRun(k, states, moves, honest) && states[0] == Init(k)
  }

  // ---- What was streamed for a task ----

  /** The goroutine at pc removes the stdout buffer of t: a clean-up of its request, or the settling of t. */
  predicate RemovesBuffer(kind: Kind, pc: Pc, t: Task)
  {
    || (pc.UnBuffer? && kind.Requester? && kind.task == t)
    || (pc.Settle? && pc.stage.ForgetBuffer? && pc.m.taskID == t)
  }

  function NextStreamed(before: seq<string>, kind: Kind, pc: Pc, e: Event, t: Task): seq<string>
  {
    if e.ReadStdout? && e.t == t then before + [e.chunk] else if RemovesBuffer(kind, pc, t) then [] else before
  }

  /** The "stdout" chunks that handlers have read for t since its buffer was last removed, after n moves. */
  ghost function Streamed(k: Kinds, states: seq<State>, moves: seq<Move>, n: nat, t: Task): seq<string>
  {
    if n == 0 || n > |moves| || n > |states| then []
    else
      var g, e := moves[n - 1].g, moves[n - 1].e;
      var before := Streamed(k, states, moves, n - 1, t);
      if g in k && g in states[n - 1].pcs then NextStreamed(before, k[g], states[n - 1].pcs[g], e, t) else before
  }

  /** What the buffer of t holds when these chunks were streamed: there is none before the first. */
  function Held(chunks: seq<string>): Option<string>
  {
    if chunks == [] then None else Some(Buffered(chunks, STDOUT_MAX_BYTES))
  }

  lemma HeldSnoc(tb: Tables, t: Task, chunks: seq<string>, chunk: string)
    requires Lookup(tb.buffers, t) == Held(chunks)
    ensures Lookup(AppendStdout(tb, t, chunk).buffers, t) == Held(chunks + [chunk])
  {
    assert (chunks + [chunk])[..|chunks + [chunk]| - 1] == chunks;
  }

  /** Which steps touch the buffer of t. */
  ghost predicate BufferStep(kind: Kind, pc: Pc, e: Event, t: Task, tb: Tables, tb': Tables)
  {
    if e.ReadStdout? && e.t == t then tb'.buffers == AppendStdout(tb, t, e.chunk).buffers
    else if RemovesBuffer(kind, pc, t) then Lookup(tb'.buffers, t) == None
    else Lookup(tb'.buffers, t) == Lookup(tb.buffers, t)
  }

  lemma OpOnBuffer(tb: Tables, op: Op, t: Task)
    ensures op.Stdout? && op.t == t ==> Do(tb, op).buffers == AppendStdout(tb, t, op.chunk).buffers
    ensures op == ForgetBufferOf(t) ==> Lookup(Do(tb, op).buffers, t) == None
    ensures !(op.Stdout? && op.t == t) && op != ForgetBufferOf(t) ==>
              Lookup(Do(tb, op).buffers, t) == Lookup(tb.buffers, t)
  {
  }

  lemma StdoutIsRead(tb: Tables, g: Gid, pc: Pc, e: Event)
    requires EventFits(tb, g, pc, e) && e.ReadStdout?
    ensures pc.ConnRead?
  {
  }

  lemma StdoutEffect(kind: Kind, g: Gid, pc: Pc, e: Event)
    ensures var op := Effect(kind, g, pc, e);
            (op.Stdout? <==> pc.ConnRead? && e.ReadStdout?) && (op.Stdout? ==> op == Stdout(e.t, e.chunk))
  {
  }

  lemma ForgetEffect(kind: Kind, g: Gid, pc: Pc, e: Event, t: Task)
    ensures Effect(kind, g, pc, e) == ForgetBufferOf(t) <==> RemovesBuffer(kind, pc, t)
  {
  }

  lemma BufferAfter(kind: Kind, g: Gid, pc: Pc, tb: Tables, e: Event, t: Task)
    requires EventFits(tb, g, pc, e)
    ensures BufferStep(kind, pc, e, t, tb, Do(tb, Effect(kind, g, pc, e)))
  {
    if e.ReadStdout? {
      StdoutIsRead(tb, g, pc, e);
    }
    StdoutEffect(kind, g, pc, e);
    ForgetEffect(kind, g, pc, e, t);
    OpOnBuffer(tb, Effect(kind, g, pc, e), t);
  }

  lemma MoveBuffer(k: Kinds, s: State, m: Move, s': State, honest: bool, t: Task)
    requires StepOk(k, s, m, s', honest)
    ensures m.g in k && m.g in s.pcs && BufferStep(k[m.g], s.pcs[m.g], m.e, t, s.tb, s'.tb)
  {
    BufferAfter(k[m.g], m.g, s.pcs[m.g], s.tb, m.e, t);
  }

  lemma HeldStep(kind: Kind, pc: Pc, e: Event, t: Task, tb: Tables, tb': Tables, before: seq<string>)
    requires Lookup(tb.buffers, t) == Held(before) && BufferStep(kind, pc, e, t, tb, tb')
    ensures Lookup(tb'.buffers, t) == Held(NextStreamed(before, kind, pc, e, t))
  {
    if e.ReadStdout? && e.t == t {
      HeldSnoc(tb, t, before, e.chunk);
    }
  }

  /** The buffer of a task is exactly what is kept of the chunks streamed since it was last removed. */
  lemma {:induction false} BufferIsStream(
      k: Kinds, states: seq<State>, moves: seq<Move>, honest: bool, n: nat, t: Task)
    requires FromScratch(k, states, moves, honest) && n <= |moves|
    ensures Lookup(states[n].tb.buffers, t) == Held(Streamed(k, states, moves, n, t))
  {
    if n > 0 {
      var s, g, e := states[n - 1], moves[n - 1].g, moves[n - 1].e;
      BufferIsStream(k, states, moves, honest, n - 1, t);
      MoveBuffer(k, s, moves[n - 1], states[n - 1 + 1], honest, t);
      HeldStep(k[g], s.pcs[g], e, t, s.tb, states[n].tb, Streamed(k, states, moves, n - 1, t));
    }
  }

  // ---- Where a message comes from ----

  /** The i-th move is a handler's reading of a result; it reads the stdout buffer at the j-th. */
  ghost predicate ReadAs(k: Kinds, states: seq<State>, moves: seq<Move>, n: nat, m: Message, i: nat, j: nat)
  {
    && i < j < n <= |moves| && moves[i].e.ReadResult? && moves[i].g == moves[j].g
    && moves[i].g in k && k[moves[i].g].Handler?
    && var read := moves[i].e.m;
    && m == Message(read.taskID, read.rc,
                    if read.stdout != "" then read.stdout
                    else Buffered(Streamed(k, states, moves, j, read.taskID), STDOUT_MAX_BYTES),
                    read.stderr, read.error)
  }

  /** Among the first n moves, an agent sent this. */
  ghost predicate FromAgent(k: Kinds, states: seq<State>, moves: seq<Move>, n: nat, m: Message)
  {
    exists i, j :: ReadAs(k, states, moves, n, m, i, j)
  }

  /** At some point of the first n moves the task was mapped to the host. */
  ghost predicate WasMapped(states: seq<State>, n: nat, t: Task, h: Host)
  {
    exists i :: 0 <= i < n && i < |states| && Lookup(states[i].tb.hosts, t) == Some(h)
  }

  /** The i-th move takes up the task to answer it, in a disconnect or revoke of the host it was mapped to. */
  ghost predicate CutAs(k: Kinds, states: seq<State>, moves: seq<Move>, n: nat, m: Message, i: nat)
  {
    && i < n <= |moves| && moves[i].e == Pick(m.taskID) && moves[i].g in k
    && (k[moves[i].g] == Handler(HostOf(k[moves[i].g])) || k[moves[i].g] == Revoker(HostOf(k[moves[i].g])))
    && WasMapped(states, i, m.taskID, HostOf(k[moves[i].g]))
    && m == Message(m.taskID, 0, "", "",
                    if k[moves[i].g].Handler? then "agent_disconnected" else "agent_revoked")
  }

  ghost predicate FromCut(k: Kinds, states: seq<State>, moves: seq<Move>, n: nat, m: Message)
  {
    exists i :: CutAs(k, states, moves, n, m, i)
  }

  ghost predicate Explained(k: Kinds, states: seq<State>, moves: seq<Move>, n: nat, m: Message)
  {
    FromAgent(k, states, moves, n, m) || FromCut(k, states, moves, n, m)
  }

  /** The result that g has in its hands was read by g before. */
  ghost predicate WasRead(moves: seq<Move>, n: nat, g: Gid, m: Message)
  {
    exists i :: 0 <= i < n && i < |moves| && moves[i] == Move(g, ReadResult(m))
  }

  ghost predicate AllMapped(k: Kinds, states: seq<State>, n: nat, g: Gid, todo: set<Task>)
    requires g in k
  {
    forall t | t in todo :: WasMapped(states, n, t, HostOf(k[g]))
  }

  /** What g has in its hands at pc. */
  ghost predicate HandTraced(k: Kinds, states: seq<State>, moves: seq<Move>, n: nat, g: Gid, pc: Pc)
    requires g in k
  {
    match pc
    case ConnResult(m) => k[g].Handler? && WasRead(moves, n, g, m)
    case Resolve(_, todo) => AllMapped(k, states, n, g, todo)
    case Settle(m, _, after) =>
      && Explained(k, states, moves, n, m)
      && (after.ToResolve? ==> AllMapped(k, states, n, g, after.todo))
    case _ => true
  }

  ghost predicate LogTraced(k: Kinds, states: seq<State>, moves: seq<Move>, n: nat, log: seq<Message>)
  {
    forall m | m in log :: Explained(k, states, moves, n, m)
  }

  ghost predicate Traced(k: Kinds, states: seq<State>, moves: seq<Move>, n: nat)
    requires n < |states|
  {
    && Typed(k, states[n])
    && (forall g | g in k && g in states[n].pcs :: HandTraced(k, states, moves, n, g, states[n].pcs[g]))
    && (forall r | r in states[n].tb.chans :: LogTraced(k, states, moves, n, states[n].tb.chans[r].log))
  }

  // ---- One move ----

  lemma ExplainedStays(k: Kinds, states: seq<State>, moves: seq<Move>, n: nat, m: Message)
    requires Explained(k, states, moves, n, m) && n < |moves|
    ensures Explained(k, states, moves, n + 1, m)
  {
    if i, j :| ReadAs(k, states, moves, n, m, i, j) {
      assert ReadAs(k, states, moves, n + 1, m, i, j);
    } else {
      var i :| CutAs(k, states, moves, n, m, i);
      assert CutAs(k, states, moves, n + 1, m, i);
    }
  }

  lemma MappedStays(k: Kinds, states: seq<State>, n: nat, g: Gid, todo: set<Task>, fewer: set<Task>)
    requires g in k && AllMapped(k, states, n, g, todo) && fewer <= todo
    ensures AllMapped(k, states, n + 1, g, fewer)
  {
    forall t | t in fewer ensures WasMapped(states, n + 1, t, HostOf(k[g])) {
      assert WasMapped(states, n, t, HostOf(k[g]));
    }
  }

  lemma HandStays(k: Kinds, states: seq<State>, moves: seq<Move>, n: nat, g: Gid, pc: Pc)
    requires g in k && HandTraced(k, states, moves, n, g, pc) && n < |moves|
    ensures HandTraced(k, states, moves, n + 1, g, pc)
  {
    match pc
    case ConnResult(m) =>
    case Resolve(_, todo) => MappedStays(k, states, n, g, todo, todo);
    case Settle(m, _, after) =>
      ExplainedStays(k, states, moves, n, m);
      if after.ToResolve? {
        MappedStays(k, states, n, g, after.todo, after.todo);
      }
    case _ =>
  }

  /** A handler with a result in its hands reads the stdout buffer. */
  lemma ResultExplained(k: Kinds, states: seq<State>, moves: seq<Move>, honest: bool, n: nat, read: Message)
    requires FromScratch(k, states, moves, honest) && n < |moves| && moves[n].g in k && moves[n].g in states[n].pcs
    requires k[moves[n].g].Handler? && WasRead(moves, n, moves[n].g, read)
    ensures Explained(k, states, moves, n + 1, WithStdout(read, BufferOf(states[n].tb, read.taskID)))
  {
    BufferIsStream(k, states, moves, honest, n, read.taskID);
    var m := WithStdout(read, BufferOf(states[n].tb, read.taskID));
    var i :| 0 <= i < n && moves[i] == Move(moves[n].g, ReadResult(read));
    assert ReadAs(k, states, moves, n + 1, m, i, n);
  }

  lemma PickExplained(k: Kinds, states: seq<State>, moves: seq<Move>, n: nat, t: Task, todo: set<Task>)
    requires n < |moves| && moves[n].g in k && moves[n].e == Pick(t) && t in todo
    requires k[moves[n].g].Handler? || k[moves[n].g].Revoker?
    requires AllMapped(k, states, n, moves[n].g, todo)
    ensures Explained(k, states, moves, n + 1, ErrorMessage(t, Reason(k[moves[n].g])))
  {
    assert CutAs(k, states, moves, n + 1, ErrorMessage(t, Reason(k[moves[n].g])), n);
  }

  lemma CollectMaps(k: Kinds, states: seq<State>, n: nat, g: Gid)
    requires g in k && n < |states|
    ensures AllMapped(k, states, n + 1, g, TasksOf(states[n].tb, HostOf(k[g])))
  {
    forall t | t in TasksOf(states[n].tb, HostOf(k[g])) ensures WasMapped(states, n + 1, t, HostOf(k[g])) {
      assert Lookup(states[n].tb.hosts, t) == Some(HostOf(k[g]));
    }
  }

  /** Settling and resolving. */
  lemma SharedHandTraced(k: Kinds, states: seq<State>, moves: seq<Move>, n: nat)
    requires n < |moves| && n < |states|
    requires var g := moves[n].g; g in k && g in states[n].pcs && PcFits(k[g], g, states[n].pcs[g])
    requires SharedPc(states[n].pcs[moves[n].g])
    requires EventFits(states[n].tb, moves[n].g, states[n].pcs[moves[n].g], moves[n].e)
    requires HandTraced(k, states, moves, n, moves[n].g, states[n].pcs[moves[n].g])
    ensures var g, s := moves[n].g, states[n];
            HandTraced(k, states, moves, n + 1, g, NextShared(k[g], s.pcs[g], s.tb, moves[n].e))
  {
    var g, s := moves[n].g, states[n];
    match s.pcs[g]
    case Collect(v) => CollectMaps(k, states, n, g);
    case Resolve(v, todo) =>
      if todo != {} {
        PickExplained(k, states, moves, n, moves[n].e.t, todo);
        MappedStays(k, states, n, g, todo, todo - {moves[n].e.t});
      }
    case Settle(m, stage, after) =>
      ExplainedStays(k, states, moves, n, m);
      if after.ToResolve? {
        MappedStays(k, states, n, g, after.todo, after.todo);
      }
  }

  lemma ConnectionHandTraced(k: Kinds, states: seq<State>, moves: seq<Move>, honest: bool, n: nat)
    requires FromScratch(k, states, moves, honest) && n < |moves|
    requires var g := moves[n].g; g in k && g in states[n].pcs && PcFits(k[g], g, states[n].pcs[g])
    requires !SharedPc(states[n].pcs[moves[n].g]) && !RequesterPc(states[n].pcs[moves[n].g])
    requires EventFits(states[n].tb, moves[n].g, states[n].pcs[moves[n].g], moves[n].e)
    requires HandTraced(k, states, moves, n, moves[n].g, states[n].pcs[moves[n].g])
    ensures var g, s := moves[n].g, states[n];
            HandTraced(k, states, moves, n + 1, g, NextConnection(k[g], g, s.pcs[g], s.tb, moves[n].e))
  {
    var g, s := moves[n].g, states[n];
    if s.pcs[g].ConnResult? {
      ResultExplained(k, states, moves, honest, n, s.pcs[g].m);
    } else if s.pcs[g].ConnRead? && moves[n].e.ReadResult? {
      assert moves[n] == Move(g, ReadResult(moves[n].e.m));
    }
  }

  lemma OwnHandTraced(k: Kinds, states: seq<State>, moves: seq<Move>, honest: bool, n: nat)
    requires FromScratch(k, states, moves, honest) && n < |moves| && Traced(k, states, moves, n)
    ensures moves[n].g in k && moves[n].g in states[n + 1].pcs
    ensures HandTraced(k, states, moves, n + 1, moves[n].g, states[n + 1].pcs[moves[n].g])
  {
    assert StepOk(k, states[n], moves[n], states[n + 1], honest);
    var g, s := moves[n].g, states[n];
    assert PcFits(k[g], g, s.pcs[g]) && HandTraced(k, states, moves, n, g, s.pcs[g]);
    if SharedPc(s.pcs[g]) {
      SharedHandTraced(k, states, moves, n);
    } else if !RequesterPc(s.pcs[g]) {
      ConnectionHandTraced(k, states, moves, honest, n);
    } else {
      assert RequesterPc(NextPc(k[g], g, s.pcs[g], s.tb, moves[n].e));
    }
  }

  /** A channel receives what its giver has in hand. */
  lemma LogBefore(kind: Kind, g: Gid, pc: Pc, tb: Tables, e: Event, r: Gid, m: Message)
    requires EventFits(tb, g, pc, e) && !Finished(pc)
    requires r in Do(tb, Effect(kind, g, pc, e)).chans && m in Do(tb, Effect(kind, g, pc, e)).chans[r].log
    ensures (r in tb.chans && m in tb.chans[r].log) || (pc.Settle? && m == pc.m)
  {
    StepChanFacts(kind, g, pc, tb, e);
    ChanAfter(tb, Effect(kind, g, pc, e), r);
  }

  lemma LogsStay(k: Kinds, states: seq<State>, moves: seq<Move>, honest: bool, n: nat, r: Gid)
    requires FromScratch(k, states, moves, honest) && n < |moves| && Traced(k, states, moves, n)
    requires r in states[n + 1].tb.chans
    ensures LogTraced(k, states, moves, n + 1, states[n + 1].tb.chans[r].log)
  {
    assert StepOk(k, states[n], moves[n], states[n + 1], honest);
    var g, s := moves[n].g, states[n];
    assert HandTraced(k, states, moves, n, g, s.pcs[g]);
    var log := states[n + 1].tb.chans[r].log;
    forall m | m in log ensures Explained(k, states, moves, n + 1, m) {
      LogBefore(k[g], g, s.pcs[g], s.tb, moves[n].e, r, m);
      if r in s.tb.chans && m in s.tb.chans[r].log {
        assert LogTraced(k, states, moves, n, s.tb.chans[r].log);
      }
      ExplainedStays(k, states, moves, n, m);
    }
  }

  lemma MoveTraced(k: Kinds, states: seq<State>, moves: seq<Move>, honest: bool, n: nat)
    requires FromScratch(k, states, moves, honest) && n < |moves| && Traced(k, states, moves, n)
    ensures Traced(k, states, moves, n + 1)
  {
    assert StepOk(k, states[n], moves[n], states[n + 1], honest);
    StepTyped(k, states[n], moves[n].g, moves[n].e);
    OwnHandTraced(k, states, moves, honest, n);
    var s' := states[n + 1];
    forall g | g in k && g in s'.pcs ensures HandTraced(k, states, moves, n + 1, g, s'.pcs[g])
    {
      if g != moves[n].g {
        HandStays(k, states, moves, n, g, states[n].pcs[g]);
      }
    }
    forall r | r in s'.tb.chans ensures LogTraced(k, states, moves, n + 1, s'.tb.chans[r].log)
    {
      LogsStay(k, states, moves, honest, n, r);
    }
  }

  lemma {:induction false} RunTraced(k: Kinds, states: seq<State>, moves: seq<Move>, honest: bool, n: nat)
    requires FromScratch(k, states, moves, honest) && n <= |moves|
    ensures Traced(k, states, moves, n)
  {
    if n == 0 {
      InitTables(k);
    } else {
      RunTraced(k, states, moves, honest, n - 1);
      MoveTraced(k, states, moves, honest, n - 1);
    }
  }

  // ---- Theorems ----

  /**
   Whatever agents say: every message ever put into a channel is a result that a handler read, delivered
   as it was read but for the stdout, or the error of a disconnect or a revoke of the task's host.
   */
  lemma MessagesAreExplained(
      k: Kinds, states: seq<State>, moves: seq<Move>, honest: bool, n: nat, r: Gid, m: Message)
    requires FromScratch(k, states, moves, honest) && n <= |moves|
    requires r in states[n].tb.chans && m in states[n].tb.chans[r].log
    ensures FromAgent(k, states, moves, n, m) || FromCut(k, states, moves, n, m)
  {
    RunTraced(k, states, moves, honest, n);
    assert LogTraced(k, states, moves, n, states[n].tb.chans[r].log);
  }

  lemma CutOfOwnHost(k: Kinds, states: seq<State>, moves: seq<Move>, n: nat, r: Gid, m: Message, i: nat)
    requires FromScratch(k, states, moves, true) && n <= |moves| && CutAs(k, states, moves, n, m, i)
    requires r in k && k[r].Requester? && k[r].task == m.taskID && Sole(k, m.taskID) && Servable(k, k[r].host)
    ensures HostOf(k[moves[i].g]) == k[r].host
  {
    var h := HostOf(k[moves[i].g]);
    var c :| 0 <= c < i && c < |states| && Lookup(states[c].tb.hosts, m.taskID) == Some(h);
    InitInv(k);
    RunInv(k, states, moves, c);
    assert Typed(k, states[c]) && HostsOk(k, states[c]);
    assert IsRequester(k, states[c], r);
  }

  lemma AnswerInLog(k: Kinds, s: State, r: Gid, m: Message)
    requires Typed(k, s) && CheckedOk(k, s) && ChansOk(k, s) && LogsOk(k, s)
    requires r in s.pcs && s.pcs[r] == ReqDone(Answer(m))
    ensures IsRequester(k, s, r) && m.taskID == k[r].task && r in s.tb.chans && m in s.tb.chans[r].log
  {
    assert PcFits(k[r], r, s.pcs[r]);
    assert LogFits(k[r].task, s.pcs[r], s.tb.chans[r]);
  }

  /**
   What sendTaskAndWait returns is about its own task. It is a result that a handler read for this task,
   with its rc, stderr and error; or the error of a disconnect or a revoke, of its own host if the id is
   its own.
   */
  lemma AnswersAreExplained(k: Kinds, states: seq<State>, moves: seq<Move>, n: nat, r: Gid, m: Message)
    requires FromScratch(k, states, moves, true) && n <= |moves|
    requires r in states[n].pcs && states[n].pcs[r] == ReqDone(Answer(m))
    ensures r in k && k[r].Requester? && m.taskID == k[r].task
    ensures || FromAgent(k, states, moves, n, m)
            || (exists i: nat :: CutAs(k, states, moves, n, m, i)
                            && (Sole(k, k[r].task) ==> HostOf(k[moves[i].g]) == k[r].host))
  {
    assert Typed(k, states[n]) && CheckedOk(k, states[n]) && ChansOk(k, states[n]) && LogsOk(k, states[n]) by {
      InitInv(k);
      RunInv(k, states, moves, n);
    }
    AnswerInLog(k, states[n], r, m);
    MessagesAreExplained(k, states, moves, true, n, r, m);
    if i :| CutAs(k, states, moves, n, m, i) {
      if Sole(k, k[r].task) {
        CutOfOwnHost(k, states, moves, n, r, m, i);
      }
    }
  }
}
