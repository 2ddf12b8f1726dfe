/**
 The server's task relay (ws/handler.go together with sendTaskAndWait in handlers/exec.go).

 `Tables` is the shared state and the functions on it are the lock sections of the code, one
 function per section. The class RelayTables runs them as the sequential code does; the machine
 RelayMachine interleaves them between any number of goroutines.

 A goroutine is named by a number. A connection is named by the goroutine of its AgentHandler and
 a result channel by the goroutine whose sendTaskAndWait made it: each is created exactly once.
 */
module Relay {
  import opened Base
  import StdoutBuffer

  type Gid = nat
  type Task = string
  type Host = string

  /** ws.Message, as far as the relay looks at it. */
  datatype Message = Message(taskID: Task, rc: int, stdout: string, stderr: string, error: string)

  function ErrorMessage(t: Task, reason: string): Message
  {
    Message(t, 0, "", "", reason)
  }

  /** A channel of capacity one; log is the history of everything ever put into it. */
  datatype Chan = Chan(buf: Option<Message>, log: seq<Message>)

  datatype Tables = Tables(
    conns: map<Host, Gid>,      // wsConnections, under connectionsMu
    pending: map<Task, Gid>,    // pendingTasks, under tasksMu
    hosts: map<Task, Host>,     // taskHostnames, under taskHostMu
    buffers: map<Task, string>, // stdoutBuffers, under buffersMu
    closed: set<Gid>,           // connections on which Close has been called
    chans: map<Gid, Chan>)      // the result channels made so far

  const EMPTY := Tables(map[], map[], map[], map[], {}, map[])

  /** RegisterConnection: close the connection it replaces, if any, and take its place. */
  function PutConnection(tb: Tables, h: Host, c: Gid): Tables
  {
    tb.(closed := if h in tb.conns then tb.closed + {tb.conns[h]} else tb.closed,
        conns := tb.conns[h := c])
  }

  function DropConnection(tb: Tables, h: Host): Tables
  {
    tb.(conns := tb.conns - {h})
  }

  function CloseConnection(tb: Tables, c: Gid): Tables
  {
    tb.(closed := tb.closed + {c})
  }

  /** RegisterFuture, first half: a new empty channel under the task id. */
  function PutFuture(tb: Tables, t: Task, g: Gid): Tables
  {
    tb.(pending := tb.pending[t := g], chans := tb.chans[g := Chan(None, [])])
  }

  function PutHost(tb: Tables, t: Task, h: Host): Tables
  {
    tb.(hosts := tb.hosts[t := h])
  }

  function DropPending(tb: Tables, t: Task): Tables
  {
    tb.(pending := tb.pending - {t})
  }

  function DropHost(tb: Tables, t: Task): Tables
  {
    tb.(hosts := tb.hosts - {t})
  }

  function DropBuffer(tb: Tables, t: Task): Tables
  {
    tb.(buffers := tb.buffers - {t})
  }

  function BufferOf(tb: Tables, t: Task): string
  {
    if t in tb.buffers then tb.buffers[t] else ""
  }

  function AppendStdout(tb: Tables, t: Task, chunk: string): Tables
  {
    tb.(buffers := tb.buffers[t := StdoutBuffer.Accumulate(BufferOf(tb, t), chunk, StdoutBuffer.STDOUT_MAX_BYTES)])
  }

  /** The select with a default: put the message unless the channel is full; a nil channel never takes one. */
  function Offer(tb: Tables, ch: Option<Gid>, m: Message): Tables
  {
    if ch.Some? && ch.value in tb.chans && tb.chans[ch.value].buf.None?
    then tb.(chans := tb.chans[ch.value := Chan(Some(m), tb.chans[ch.value].log + [m])])
    else tb
  }

  /** Receiving empties the channel. */
  function Take(tb: Tables, g: Gid): Tables
  {
    if g in tb.chans then tb.(chans := tb.chans[g := tb.chans[g].(buf := None)]) else tb
  }

  // ---- Lock sections that write, as values ----

  datatype Op =
    | Nothing
    | Connect(h: Host, c: Gid)
    | Disconnect(h: Host)
    | Close(c: Gid)
    | NewFuture(t: Task, g: Gid)
    | MapHost(t: Task, h: Host)
    | ForgetPendingOf(t: Task)
    | ForgetHostOf(t: Task)
    | ForgetBufferOf(t: Task)
    | Stdout(t: Task, chunk: string)
    | Put(ch: Option<Gid>, m: Message)
    | Get(g: Gid)

  function Do(tb: Tables, op: Op): Tables
  {
    match op
    case Nothing => tb
    case Connect(h, c) => PutConnection(tb, h, c)
    case Disconnect(h) => DropConnection(tb, h)
    case Close(c) => CloseConnection(tb, c)
    case NewFuture(t, g) => PutFuture(tb, t, g)
    case MapHost(t, h) => PutHost(tb, t, h)
    case ForgetPendingOf(t) => DropPending(tb, t)
    case ForgetHostOf(t) => DropHost(tb, t)
    case ForgetBufferOf(t) => DropBuffer(tb, t)
    case Stdout(t, chunk) => AppendStdout(tb, t, chunk)
    case Put(ch, m) => Offer(tb, ch, m)
    case Get(g) => Take(tb, g)
  }

  /** The task ids ResolveFuturesForHostname collects under the read lock. */
  function TasksOf(tb: Tables, h: Host): set<Task>
  {
    set t | t in tb.hosts && tb.hosts[t] == h
  }

  /** A "result" message takes the accumulated stdout when it carries none itself. */
  function WithStdout(m: Message, accumulated: string): Message
  {
    if m.stdout == "" && accumulated != "" then m.(stdout := accumulated) else m
  }

  /** Answer a task: look up its channel, offer the message, forget the task in the three maps. */
  function SettleTask(tb: Tables, m: Message): Tables
  {
    var offered := Offer(tb, Lookup(tb.pending, m.taskID), m);
    DropHost(DropBuffer(DropPending(offered, m.taskID), m.taskID), m.taskID)
  }
}
