/**
 The shared maps of ws/handler.go as an object whose methods update them in place, one call at a
 time. Each method is proved against the lock sections of module Relay, which the machine in
 RelayMachine interleaves.
 */
module RelayTables {
  import opened Base
  import opened Relay
  import StdoutBuffer

  /** Every pending task has a channel, and no two share one. */
  predicate WellFormed(tb: Tables)
  {
    && (forall t | t in tb.pending :: tb.pending[t] in tb.chans)
    && (forall t, u | t in tb.pending && u in tb.pending && tb.pending[t] == tb.pending[u] :: t == u)
  }

  /** A non-blocking send of m: into an empty channel, never over a message that is there. */
  ghost predicate Offered(before: Chan, m: Message, after: Chan)
  {
    if before.buf.None? then after.buf == Some(m) && after.log == before.log + [m] else after == before
  }

  /**
   What ResolveFuturesForHostname leaves: the tasks of the host are gone from the three maps, each
   of their waiters has the error unless it already had an answer, and nothing else has changed.
   */
  ghost predicate Resolved(tb: Tables, tasks: set<Task>, reason: string, tb': Tables)
    requires WellFormed(tb)
  {
    && tb'.conns == tb.conns && tb'.closed == tb.closed
    && tb'.pending == tb.pending - tasks && tb'.hosts == tb.hosts - tasks && tb'.buffers == tb.buffers - tasks
    && tb'.chans.Keys == tb.chans.Keys
    && (forall t | t in tasks && t in tb.pending ::
          Offered(tb.chans[tb.pending[t]], Message(t, 0, "", "", reason), tb'.chans[tb.pending[t]]))
    && (forall g | g in tb.chans && (forall t | t in tasks && t in tb.pending :: tb.pending[t] != g) ::
          tb'.chans[g] == tb.chans[g])
  }

  /** m is the answer to its task: the waiter's channel is offered it, the task is forgotten, the rest stays. */
  ghost predicate Delivered(tb: Tables, m: Message, tb': Tables)
    requires WellFormed(tb)
  {
    && tb'.conns == tb.conns && tb'.closed == tb.closed
    && tb'.pending == tb.pending - {m.taskID}
    && tb'.hosts == tb.hosts - {m.taskID}
    && tb'.buffers == tb.buffers - {m.taskID}
    && tb'.chans.Keys == tb.chans.Keys
    && (m.taskID in tb.pending ==>
          Offered(tb.chans[tb.pending[m.taskID]], m, tb'.chans[tb.pending[m.taskID]]))
    && (forall g | g in tb.chans && Lookup(tb.pending, m.taskID) != Some(g) :: tb'.chans[g] == tb.chans[g])
  }

  /** The result msg is delivered as it came, but for the accumulated stdout if it has none. */
  ghost predicate Answered(tb: Tables, msg: Message, tb': Tables)
    requires WellFormed(tb)
  {
    var accumulated := if msg.taskID in tb.buffers then tb.buffers[msg.taskID] else "";
    Delivered(tb, Message(msg.taskID, msg.rc, if msg.stdout == "" then accumulated else msg.stdout,
                          msg.stderr, msg.error), tb')
  }

  /** If before is the buffer of some chunks, absent when there were none, after is that of one more. */
  ghost predicate OneMoreChunk(before: Option<string>, chunk: string, after: Option<string>)
  {
    forall chunks: seq<string> |
      before == (if chunks == [] then None
                 else Some(StdoutBuffer.Buffered(chunks, StdoutBuffer.STDOUT_MAX_BYTES))) ::
      after == Some(StdoutBuffer.Buffered(chunks + [chunk], StdoutBuffer.STDOUT_MAX_BYTES))
  }

  lemma AppendIsOneMore(tb: Tables, t: Task, chunk: string)
    ensures OneMoreChunk(Lookup(tb.buffers, t), chunk, Lookup(AppendStdout(tb, t, chunk).buffers, t))
  {
    forall chunks: seq<string> ensures (chunks + [chunk])[..|chunks + [chunk]| - 1] == chunks {
    }
  }

  lemma SettleDelivers(tb: Tables, m: Message)
    requires WellFormed(tb)
    ensures Delivered(tb, m, SettleTask(tb, m)) && WellFormed(SettleTask(tb, m))
  {
  }

  lemma DropOneMore<V>(m: map<Task, V>, tasks: set<Task>, t: Task)
    ensures m - tasks - {t} == m - (tasks + {t})
  {
  }

  /** One round of the loop. */
  lemma ResolvedOneMore(tb: Tables, tasks: set<Task>, reason: string, mid: Tables, t: Task, tb': Tables)
    requires WellFormed(tb) && WellFormed(mid) && Resolved(tb, tasks, reason, mid) && t !in tasks
    requires Delivered(mid, Message(t, 0, "", "", reason), tb')
    ensures Resolved(tb, tasks + {t}, reason, tb')
  {
    assert tb'.pending == tb.pending - (tasks + {t}) by { DropOneMore(tb.pending, tasks, t); }
    assert tb'.hosts == tb.hosts - (tasks + {t}) by { DropOneMore(tb.hosts, tasks, t); }
    assert tb'.buffers == tb.buffers - (tasks + {t}) by { DropOneMore(tb.buffers, tasks, t); }
    assert Lookup(mid.pending, t) == Lookup(tb.pending, t);
    if t in tb.pending {
      assert mid.chans[tb.pending[t]] == tb.chans[tb.pending[t]];
    }
  }

  class RelayState {
    var wsConnections: map<Host, Gid>
    var pendingTasks: map<Task, Gid>
    var taskHostnames: map<Task, Host>
    var stdoutBuffers: map<Task, string>
    var closed: set<Gid>
    var channels: map<Gid, Chan>

    function Now(): Tables
      reads this
    {
      Tables(wsConnections, pendingTasks, taskHostnames, stdoutBuffers, closed, channels)
    }

    constructor ()
      ensures Now() == EMPTY
    {
      wsConnections, pendingTasks, taskHostnames := map[], map[], map[];
      stdoutBuffers, closed, channels := map[], {}, map[];
    }

    method RegisterConnection(hostname: Host, conn: Gid)
      modifies this
      ensures Now() == PutConnection(old(Now()), hostname, conn)
      ensures wsConnections == old(wsConnections)[hostname := conn]
      ensures closed == old(closed) + if hostname in old(wsConnections) then {old(wsConnections)[hostname]} else {}
      ensures pendingTasks == old(pendingTasks) && taskHostnames == old(taskHostnames)
      ensures stdoutBuffers == old(stdoutBuffers) && channels == old(channels)
    {
      if hostname in wsConnections {
        closed := closed + {wsConnections[hostname]};
      }
      wsConnections := wsConnections[hostname := conn];
    }

    method UnregisterConnection(hostname: Host)
      requires WellFormed(Now())
      modifies this
      ensures WellFormed(Now())
      ensures wsConnections == old(wsConnections) - {hostname} && closed == old(closed)
      ensures Resolved(DropConnection(old(Now()), hostname), TasksOf(old(Now()), hostname), "agent_disconnected", Now())
    {
      wsConnections := wsConnections - {hostname};
      ResolveFuturesForHostname(hostname, "agent_disconnected");
    }

    method CloseAgent(hostname: Host) returns (found: bool)
      requires WellFormed(Now())
      modifies this
      ensures WellFormed(Now())
      ensures found <==> hostname in old(wsConnections)
      ensures !found ==> Now() == old(Now())
      ensures found ==> wsConnections == old(wsConnections) - {hostname}
                        && closed == old(closed) + {old(wsConnections)[hostname]}
      ensures found ==>
                Resolved(CloseConnection(DropConnection(old(Now()), hostname), old(wsConnections)[hostname]),
                         TasksOf(old(Now()), hostname), "agent_revoked", Now())
    {
      if hostname !in wsConnections {
        return false;
      }
      var conn := wsConnections[hostname];
      wsConnections := wsConnections - {hostname};
      closed := closed + {conn};
      ResolveFuturesForHostname(hostname, "agent_revoked");
      return true;
    }

    /** resultChan is a channel that did not exist before, as make(chan Message, 1) returns it. */
    method RegisterFuture(taskID: Task, hostname: Host, resultChan: Gid)
      requires WellFormed(Now()) && resultChan !in channels
      modifies this
      ensures WellFormed(Now())
      ensures Now() == PutHost(PutFuture(old(Now()), taskID, resultChan), taskID, hostname)
      ensures pendingTasks == old(pendingTasks)[taskID := resultChan]
      ensures taskHostnames == old(taskHostnames)[taskID := hostname]
      ensures channels == old(channels)[resultChan := Chan(None, [])]
      ensures wsConnections == old(wsConnections) && stdoutBuffers == old(stdoutBuffers) && closed == old(closed)
    {
      channels := channels[resultChan := Chan(None, [])];
      pendingTasks := pendingTasks[taskID := resultChan];
      taskHostnames := taskHostnames[taskID := hostname];
    }

    /** Registering a fresh id and giving up again leaves the maps as they were. */
    method UnregisterFuture(taskID: Task)
      requires WellFormed(Now())
      modifies this
      ensures WellFormed(Now())
      ensures Now() == DropBuffer(DropHost(DropPending(old(Now()), taskID), taskID), taskID)
      ensures pendingTasks == old(pendingTasks) - {taskID} && taskHostnames == old(taskHostnames) - {taskID}
      ensures stdoutBuffers == old(stdoutBuffers) - {taskID}
      ensures wsConnections == old(wsConnections) && channels == old(channels) && closed == old(closed)
    {
      pendingTasks := pendingTasks - {taskID};
      taskHostnames := taskHostnames - {taskID};
      stdoutBuffers := stdoutBuffers - {taskID};
    }

    method ResolveFuturesForHostname(hostname: Host, errorMsg: string)
      requires WellFormed(Now())
      modifies this
      ensures WellFormed(Now())
      ensures Resolved(old(Now()), TasksOf(old(Now()), hostname), errorMsg, Now())
    {
      var taskIDs := set t | t in taskHostnames && taskHostnames[t] == hostname;
      ghost var all := taskIDs;
      assert pendingTasks - {} == pendingTasks && taskHostnames - {} == taskHostnames;
      assert stdoutBuffers - {} == stdoutBuffers;
      while taskIDs != {}
        invariant taskIDs <= all && WellFormed(Now())
        invariant Resolved(old(Now()), all - taskIDs, errorMsg, Now())
      {
        var taskID :| taskID in taskIDs;
        ghost var before := Now();
        SettlePending(Message(taskID, 0, "", "", errorMsg));
        ResolvedOneMore(old(Now()), all - taskIDs, errorMsg, before, taskID, Now());
        assert all - taskIDs + {taskID} == all - (taskIDs - {taskID});
        taskIDs := taskIDs - {taskID};
      }
      assert all - {} == all;
    }

    /** The part a result and a disconnect have in common: answer, then forget the task. */
    method SettlePending(msg: Message)
      requires WellFormed(Now())
      modifies this
      ensures WellFormed(Now())
      ensures Now() == SettleTask(old(Now()), msg)
      ensures Delivered(old(Now()), msg, Now())
    {
      SettleDelivers(Now(), msg);
      var taskID := msg.taskID;
      if taskID in pendingTasks {
        var resultChan := pendingTasks[taskID];
        var ch := channels[resultChan];
        if ch.buf.None? {
          channels := channels[resultChan := Chan(Some(msg), ch.log + [msg])];
        }
      }
      pendingTasks := pendingTasks - {taskID};
      stdoutBuffers := stdoutBuffers - {taskID};
      taskHostnames := taskHostnames - {taskID};
    }

    /** A "stdout" message. */
    method HandleStdout(taskID: Task, chunk: string)
      modifies this
      ensures Now() == AppendStdout(old(Now()), taskID, chunk)
      ensures OneMoreChunk(Lookup(old(stdoutBuffers), taskID), chunk, Lookup(stdoutBuffers, taskID))
      ensures stdoutBuffers - {taskID} == old(stdoutBuffers) - {taskID}
      ensures pendingTasks == old(pendingTasks) && taskHostnames == old(taskHostnames) && channels == old(channels)
      ensures wsConnections == old(wsConnections) && closed == old(closed)
    {
      var buf := if taskID in stdoutBuffers then stdoutBuffers[taskID] else "";
      var combined := buf + chunk;
      if StdoutBuffer.ByteLen(combined) > StdoutBuffer.STDOUT_MAX_BYTES {
        combined := StdoutBuffer.Truncate(combined, StdoutBuffer.STDOUT_MAX_BYTES);
      }
      stdoutBuffers := stdoutBuffers[taskID := combined];
      AppendIsOneMore(old(Now()), taskID, chunk);
    }

    /** A "result" message: the waiter gets it with the accumulated stdout, unless it already had an answer. */
    method HandleResult(msg: Message)
      requires WellFormed(Now())
      modifies this
      ensures WellFormed(Now())
      ensures Now() == SettleTask(old(Now()), WithStdout(msg, BufferOf(old(Now()), msg.taskID)))
      ensures Answered(old(Now()), msg, Now())
    {
      var accumulated := if msg.taskID in stdoutBuffers then stdoutBuffers[msg.taskID] else "";
      var answer := if msg.stdout == "" && accumulated != "" then msg.(stdout := accumulated) else msg;
      SettlePending(answer);
    }

    /**
     Only "stdout" and "result" messages that name a task change anything. A result reaches an empty channel
     of its task with its rc, stderr and error as they came, and with the accumulated stdout if it has none.
     */
    method HandleMessage(msgType: string, msg: Message, chunk: string)
      requires WellFormed(Now())
      modifies this
      ensures WellFormed(Now())
      ensures Now() ==
              if msg.taskID == "" then old(Now())
              else if msgType == "stdout" then AppendStdout(old(Now()), msg.taskID, chunk)
              else if msgType == "result" then SettleTask(old(Now()), WithStdout(msg, BufferOf(old(Now()), msg.taskID)))
              else old(Now())
      ensures msgType == "result" && msg.taskID != "" ==> Answered(old(Now()), msg, Now())
      ensures msgType == "stdout" && msg.taskID != "" ==>
                && OneMoreChunk(Lookup(old(stdoutBuffers), msg.taskID), chunk, Lookup(stdoutBuffers, msg.taskID))
                && stdoutBuffers - {msg.taskID} == old(stdoutBuffers) - {msg.taskID}
      ensures msgType != "result" || msg.taskID == "" ==>
                && pendingTasks == old(pendingTasks) && taskHostnames == old(taskHostnames)
                && channels == old(channels) && wsConnections == old(wsConnections) && closed == old(closed)
      ensures (msgType != "result" && msgType != "stdout") || msg.taskID == "" ==> stdoutBuffers == old(stdoutBuffers)
    {
      if msg.taskID == "" || msgType == "" {
        return;
      }
      if msgType == "stdout" {
        HandleStdout(msg.taskID, chunk);
      } else if msgType == "result" {
        HandleResult(msg);
      }
    }

    /** The part of SendToAgent before WriteJSON. */
    method AddressTask(hostname: Host, taskID: Task) returns (conn: Option<Gid>)
      modifies this
      ensures conn == Lookup(old(wsConnections), hostname)
      ensures Now() == if conn.Some? then PutHost(old(Now()), taskID, hostname) else old(Now())
      ensures taskHostnames == if conn.Some? then old(taskHostnames)[taskID := hostname] else old(taskHostnames)
    {
      if hostname !in wsConnections {
        return None;
      }
      taskHostnames := taskHostnames[taskID := hostname];
      return Some(wsConnections[hostname]);
    }
  }

  /** "stdout" messages for t, one after the other. */
  function AppendAll(tb: Tables, t: Task, chunks: seq<string>): Tables
    decreases |chunks|
  {
    if chunks == [] then tb else AppendStdout(AppendAll(tb, t, chunks[..|chunks| - 1]), t, chunks[|chunks| - 1])
  }

  /** From an absent entry they leave what the buffer keeps of them, and nothing else changes. */
  lemma {:induction false} ChunksAreBuffered(tb: Tables, t: Task, chunks: seq<string>)
    requires t !in tb.buffers
    ensures Lookup(AppendAll(tb, t, chunks).buffers, t)
            == if chunks == [] then None else Some(StdoutBuffer.Buffered(chunks, StdoutBuffer.STDOUT_MAX_BYTES))
    ensures var after := AppendAll(tb, t, chunks);
            after == tb.(buffers := after.buffers) && after.buffers - {t} == tb.buffers
    decreases |chunks|
  {
    if chunks != [] {
      ChunksAreBuffered(tb, t, chunks[..|chunks| - 1]);
    } else {
      assert tb.buffers - {t} == tb.buffers;
    }
  }

  /** A registered request whose host disconnects is answered, whatever happened to other hosts. */
  lemma DisconnectAnswers(tb: Tables, t: Task, g: Gid, h: Host, reason: string, tb': Tables)
    requires WellFormed(tb) && g !in tb.chans && t !in tb.pending
    requires var reg := PutHost(PutFuture(tb, t, g), t, h);
             WellFormed(reg) && Resolved(reg, TasksOf(reg, h), reason, tb')
    ensures var m := Message(t, 0, "", "", reason); tb'.chans[g] == Chan(Some(m), [m])
    ensures forall u | u in tb.pending && Lookup(tb.hosts, u) != Some(h) ::
              u in tb'.pending && tb'.chans[tb.pending[u]] == tb.chans[tb.pending[u]]
  {
    var reg := PutHost(PutFuture(tb, t, g), t, h);
    assert t in TasksOf(reg, h) && t in reg.pending && reg.pending[t] == g;
    var m := Message(t, 0, "", "", reason);
    assert Offered(Chan(None, []), m, tb'.chans[g]);
    forall u | u in tb.pending && Lookup(tb.hosts, u) != Some(h)
      ensures u in tb'.pending && tb'.chans[tb.pending[u]] == tb.chans[tb.pending[u]]
    {
      assert u in reg.pending && u !in TasksOf(reg, h);
      assert tb.pending[u] in reg.chans && tb.pending[u] != g;
      forall v | v in TasksOf(reg, h) && v in reg.pending ensures reg.pending[v] != tb.pending[u] {
      }
    }
  }

  /** RegisterFuture then UnregisterFuture, for an id not in use, is the identity on the three maps. */
  lemma GiveUpRestores(tb: Tables, t: Task, g: Gid, h: Host)
    requires t !in tb.pending && t !in tb.hosts && t !in tb.buffers
    ensures var after := DropBuffer(DropHost(DropPending(PutHost(PutFuture(tb, t, g), t, h), t), t), t);
            after == tb.(chans := tb.chans[g := Chan(None, [])])
  {
    assert tb.pending[t := g] - {t} == tb.pending;
    assert tb.hosts[t := h] - {t} == tb.hosts;
    assert tb.buffers - {t} == tb.buffers;
  }
}
