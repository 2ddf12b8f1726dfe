/**
 Goroutines of the relay as step machines. Program counters sit between lock sections; a section
 that holds one lock and acquires nothing inside it is a single step, and every lock that is held
 from one step to the next is read off the program counter by `Holds`.
 */
module RelayMachine {
  import opened Base
  import opened Relay

  datatype Kind =
    | Requester(task: Task, host: Host)  // checkAgentOnline, then sendTaskAndWait
    | Handler(host: Host)                // AgentHandler, from RegisterConnection on
    | Revoker(host: Host)                // CloseAgent
    | Rotator                            // AdminRotateKeys, once the new keys are stored

  /** The host a goroutine is about; a rotation is about all of them. */
  function HostOf(kind: Kind): Host
  {
    if kind.Rotator? then "" else kind.host
  }

  datatype Lock = ConnectionsMu | ConnMu(conn: Gid) | TasksMu | TaskHostMu | BuffersMu

  datatype Outcome = Answer(m: Message) | SendFailed | TimedOut

  /** The stages shared by a "result" message and by each round of ResolveFuturesForHostname. */
  datatype Stage = LookUp | Send(ch: Option<Gid>) | ForgetPending | ForgetBuffer | ForgetHost

  datatype After = ToRead | ToResolve(victim: Gid, todo: set<Task>)

  datatype Pc =
    // ExecCommand, UploadFile and FetchFile
    | ReqCheck                   // checkAgentOnline, before GetConnection
    | ReqRefused                 // agent_offline
    // sendTaskAndWait
    | ReqRegister                // RegisterFuture, before tasksMu.Lock
    | ReqMapHost                 // RegisterFuture, tasksMu held, before taskHostMu.Lock
    | ReqFind                    // SendToAgent, before GetConnection
    | ReqLock(c: Gid)            // SendToAgent, before conn.mu.Lock
    | ReqRemap(c: Gid)           // SendToAgent, conn.mu held, before taskHostMu.Lock
    | ReqWrite(c: Gid)           // SendToAgent, conn.mu held, before WriteJSON
    | ReqWait(c: Gid)            // WaitForResult
    | UnPending(o: Outcome)      // UnregisterFuture, three sections
    | UnHost(o: Outcome)
    | UnBuffer(o: Outcome)
    | ReqDone(o: Outcome)
    // AgentHandler
    | ConnRegister
    | ConnRekey                  // RekeyFunc, before its GetConnection
    | ConnRekeyWrite(c: Gid)     // RekeyFunc, before conn.mu.Lock
    | ConnRekeyPlain             // the plain rekey signal, before agentConn.mu.Lock
    | ConnRead
    | ConnResult(m: Message)     // HandleMessage "result", before reading the stdout buffer
    | ConnUnregister             // UnregisterConnection, before connectionsMu.Lock
    | ConnClose
    | ConnDone
    // CloseAgent
    | RevFind
    | RevClose(c: Gid)
    | RevDone(found: Option<Gid>)
    // AdminRotateKeys
    | RotList                          // GetConnectedHostnames
    | RotNext(todo: set<Host>)         // its loop, between two hosts; SendToAgent, before GetConnection
    | RotWrite(c: Gid, left: set<Host>)   // SendToAgent, before conn.mu.Lock; a rekey has no task id
    | RotDone
    // shared
    | Collect(victim: Gid)                    // ResolveFuturesForHostname, before taskHostMu.RLock
    | Resolve(victim: Gid, todo: set<Task>)   // its loop, between two tasks
    | Settle(m: Message, stage: Stage, after: After)

  /** What the world outside the lock sections decides at a step. */
  datatype Event =
    | Tick
    | WriteOk | WriteFail
    | Receive | Timeout
    | StartRekey
    | ReadStdout(t: Task, chunk: string) | ReadResult(m: Message) | ReadOther | ReadError
    | Pick(t: Task)
    | PickHost(h: Host)

  datatype State = State(
    pcs: map<Gid, Pc>,
    tb: Tables,
    sent: set<Task>)   // task ids an agent may have seen: WriteJSON was called with them

  type Kinds = map<Gid, Kind>

  // ---- Locks ----

  ghost function Holds(kind: Kind, pc: Pc): set<Lock>
  {
    match pc
    case ReqMapHost => {TasksMu}
    case ReqRemap(c) => {ConnMu(c)}
    case ReqWrite(c) => {ConnMu(c)}
    case Collect(_) => if kind.Handler? then {ConnectionsMu} else {}
    case Resolve(_, _) => if kind.Handler? then {ConnectionsMu} else {}
    case Settle(_, _, after) => if kind.Handler? && after.ToResolve? then {ConnectionsMu} else {}
    case _ => {}
  }

  /** The lock the next step acquires, if any. g is the goroutine itself. */
  function Wants(g: Gid, pc: Pc): Option<Lock>
  {
    match pc
    case ReqCheck => Some(ConnectionsMu)
    case ReqRegister => Some(TasksMu)
    case ReqMapHost => Some(TaskHostMu)
    case ReqFind => Some(ConnectionsMu)
    case ReqLock(c) => Some(ConnMu(c))
    case ReqRemap(_) => Some(TaskHostMu)
    case UnPending(_) => Some(TasksMu)
    case UnHost(_) => Some(TaskHostMu)
    case UnBuffer(_) => Some(BuffersMu)
    case ConnRegister => Some(ConnectionsMu)
    case ConnRekey => Some(ConnectionsMu)
    case ConnRekeyWrite(c) => Some(ConnMu(c))
    case ConnRekeyPlain => Some(ConnMu(g))
    case ConnResult(_) => Some(BuffersMu)
    case ConnUnregister => Some(ConnectionsMu)
    case RevFind => Some(ConnectionsMu)
    case RevClose(c) => Some(ConnMu(c))
    case RotList => Some(ConnectionsMu)
    case RotNext(todo) => if todo == {} then None else Some(ConnectionsMu)
    case RotWrite(c, _) => Some(ConnMu(c))
    case Collect(_) => Some(TaskHostMu)
    case Settle(_, stage, _) =>
      (match stage
       case LookUp => Some(TasksMu)
       case Send(_) => None
       case ForgetPending => Some(TasksMu)
       case ForgetBuffer => Some(BuffersMu)
       case ForgetHost => Some(TaskHostMu))
    case _ => None
  }

  /** The order in which nested locks are taken. */
  function Rank(l: Lock): nat
  {
    match l
    case ConnectionsMu => 0
    case ConnMu(_) => 1
    case TasksMu => 2
    case TaskHostMu => 3
    case BuffersMu => 4
  }

  ghost predicate LockFree(k: Kinds, s: State, g: Gid, l: Lock)
  {
    forall p | p in s.pcs && p in k && p != g :: l !in Holds(k[p], s.pcs[p])
  }

  // ---- Steps ----

  predicate Finished(pc: Pc)
  {
    pc.ReqRefused? || pc.ReqDone? || pc.ConnDone? || pc.RevDone? || pc.RotDone?
  }

  /** The events the outside world may choose at a program counter. */
  predicate EventFits(tb: Tables, g: Gid, pc: Pc, e: Event)
  {
    match pc
    case ReqWrite(c) => e == WriteFail || (e == WriteOk && c !in tb.closed)
    case ReqWait(_) => e == Timeout || (e == Receive && g in tb.chans && tb.chans[g].buf.Some?)
    case ConnRegister => e == Tick || e == StartRekey
    case ConnRekey => e == Tick || e == WriteFail
    case ConnRekeyWrite(c) => e == WriteFail || (e == WriteOk && c !in tb.closed)
    case ConnRead =>   // a message without a task id, like an ack or an unknown type, is ReadOther
      (e.ReadStdout? && e.t != "") || (e.ReadResult? && e.m.taskID != "") || e == ReadOther || e == ReadError
    case RotNext(todo) => if todo == {} then e == Tick else e.PickHost? && e.h in todo
    case RotWrite(c, _) => e == WriteFail || (e == WriteOk && c !in tb.closed)
    case Resolve(_, todo) => if todo == {} then e == Tick else e.Pick? && e.t in todo
    case _ => e == Tick
  }

  /** Task ids are unguessable: an agent only names ids it was sent, or ids no request uses. */
  predicate Honest(k: Kinds, s: State, e: Event)
  {
    match e
    case ReadStdout(t, _) => t in s.sent || t !in TasksInUse(k)
    case ReadResult(m) => m.taskID in s.sent || m.taskID !in TasksInUse(k)
    case _ => true
  }

  function TasksInUse(k: Kinds): set<Task>
  {
    set r | r in k && k[r].Requester? :: k[r].task
  }

  /** Without any assumption about what agents say. */
  ghost predicate CanStep(k: Kinds, s: State, g: Gid, e: Event)
  {
    && g in k && g in s.pcs && !Finished(s.pcs[g])
    && EventFits(s.tb, g, s.pcs[g], e)
    && (Wants(g, s.pcs[g]).Some? ==> LockFree(k, s, g, Wants(g, s.pcs[g]).value))
  }

  ghost predicate Enabled(k: Kinds, s: State, g: Gid, e: Event)
  {
    CanStep(k, s, g, e) && Honest(k, s, e)
  }

  /** UnregisterConnection answers with agent_disconnected, CloseAgent with agent_revoked. */
  function Reason(kind: Kind): string
  {
    if kind.Handler? then "agent_disconnected" else "agent_revoked"
  }

  /** Where a Settle goes when it has forgotten its task. */
  function Return(after: After): Pc
  {
    match after
    case ToRead => ConnRead
    case ToResolve(v, todo) => Resolve(v, todo)
  }

  /** What the step writes: a section of the code, named by its operands. */
  function Effect(kind: Kind, g: Gid, pc: Pc, e: Event): Op
  {
    match pc
    case ReqRegister => if kind.Requester? then NewFuture(kind.task, g) else Nothing
    case ReqMapHost => if kind.Requester? then MapHost(kind.task, HostOf(kind)) else Nothing
    case ReqRemap(_) => if kind.Requester? then MapHost(kind.task, HostOf(kind)) else Nothing
    case ReqWait(_) => if e == Receive then Get(g) else Nothing
    case UnPending(_) => if kind.Requester? then ForgetPendingOf(kind.task) else Nothing
    case UnHost(_) => if kind.Requester? then ForgetHostOf(kind.task) else Nothing
    case UnBuffer(_) => if kind.Requester? then ForgetBufferOf(kind.task) else Nothing
    case ConnRegister => Connect(HostOf(kind), g)
    case ConnRead => if e.ReadStdout? then Stdout(e.t, e.chunk) else Nothing
    case ConnUnregister => Disconnect(HostOf(kind))
    case ConnClose => Close(g)
    case RevFind => Disconnect(HostOf(kind))
    case RevClose(c) => Close(c)
    case Settle(m, stage, _) =>
      (match stage
       case LookUp => Nothing
       case Send(ch) => Put(ch, m)
       case ForgetPending => ForgetPendingOf(m.taskID)
       case ForgetBuffer => ForgetBufferOf(m.taskID)
       case ForgetHost => ForgetHostOf(m.taskID))
    case _ => Nothing
  }

  /** Program counters of a request. */
  predicate RequesterPc(pc: Pc)
  {
    || pc.ReqCheck? || pc.ReqRefused?
    || pc.ReqRegister? || pc.ReqMapHost? || pc.ReqFind? || pc.ReqLock? || pc.ReqRemap? || pc.ReqWrite? || pc.ReqWait?
    || pc.UnPending? || pc.UnHost? || pc.UnBuffer? || pc.ReqDone?
  }

  /** A request: where it goes next. */
  function NextRequest(kind: Kind, g: Gid, pc: Pc, tb: Tables, e: Event): Pc
  {
    match pc
    case ReqCheck => if HostOf(kind) != "" && HostOf(kind) in tb.conns then ReqRegister else ReqRefused
    case ReqRegister => ReqMapHost
    case ReqMapHost => ReqFind
    case ReqFind => if HostOf(kind) in tb.conns then ReqLock(tb.conns[HostOf(kind)]) else UnPending(SendFailed)
    case ReqLock(c) => ReqRemap(c)
    case ReqRemap(c) => ReqWrite(c)
    case ReqWrite(c) => if e == WriteOk then ReqWait(c) else UnPending(SendFailed)
    case ReqWait(_) =>
      if e == Receive && g in tb.chans && tb.chans[g].buf.Some? then ReqDone(Answer(tb.chans[g].buf.value))
      else UnPending(TimedOut)
    case UnPending(o) => UnHost(o)
    case UnHost(o) => UnBuffer(o)
    case UnBuffer(o) => ReqDone(o)
    case _ => pc
  }

  /** AgentHandler, CloseAgent and AdminRotateKeys, outside the shared part. */
  function NextConnection(kind: Kind, g: Gid, pc: Pc, tb: Tables, e: Event): Pc
  {
    match pc
    case ConnRegister => if e == StartRekey then ConnRekey else ConnRead
    case ConnRekey =>
      if e == Tick && HostOf(kind) in tb.conns then ConnRekeyWrite(tb.conns[HostOf(kind)]) else ConnRekeyPlain
    case ConnRekeyWrite(_) => if e == WriteOk then ConnRead else ConnRekeyPlain
    case ConnRekeyPlain => ConnRead
    case ConnRead => if e.ReadResult? then ConnResult(e.m) else if e == ReadError then ConnUnregister else ConnRead
    case ConnResult(m) => Settle(WithStdout(m, BufferOf(tb, m.taskID)), LookUp, ToRead)
    case ConnUnregister => Collect(g)
    case ConnClose => ConnDone
    case RevFind => if HostOf(kind) in tb.conns then RevClose(tb.conns[HostOf(kind)]) else RevDone(None)
    case RevClose(c) => Collect(c)
    case RotList => RotNext(tb.conns.Keys)
    case RotNext(todo) =>
      if !e.PickHost? then RotDone
      else if e.h in tb.conns then RotWrite(tb.conns[e.h], todo - {e.h})
      else RotNext(todo - {e.h})
    case RotWrite(_, left) => RotNext(left)
    case _ => pc
  }

  /** ResolveFuturesForHostname, and the settling it shares with a "result" message. */
  function NextShared(kind: Kind, pc: Pc, tb: Tables, e: Event): Pc
  {
    match pc
    case Collect(v) => Resolve(v, TasksOf(tb, HostOf(kind)))
    case Resolve(v, todo) =>
      if e.Pick? then Settle(ErrorMessage(e.t, Reason(kind)), LookUp, ToResolve(v, todo - {e.t}))
      else if kind.Handler? then ConnClose else RevDone(Some(v))
    case Settle(m, stage, after) =>
      (match stage
       case LookUp => Settle(m, Send(Lookup(tb.pending, m.taskID)), after)
       case Send(_) => Settle(m, ForgetPending, after)
       case ForgetPending => Settle(m, ForgetBuffer, after)
       case ForgetBuffer => Settle(m, ForgetHost, after)
       case ForgetHost => Return(after))
    case _ => pc
  }

  function NextPc(kind: Kind, g: Gid, pc: Pc, tb: Tables, e: Event): Pc
  {
    if RequesterPc(pc) then NextRequest(kind, g, pc, tb, e)
    else if pc.Collect? || pc.Resolve? || pc.Settle? then NextShared(kind, pc, tb, e)
    else NextConnection(kind, g, pc, tb, e)
  }

  function Apply(k: Kinds, s: State, g: Gid, e: Event): State
    requires g in k && g in s.pcs
  {
    var pc := s.pcs[g];
    State(s.pcs[g := NextPc(k[g], g, pc, s.tb, e)],
          Do(s.tb, Effect(k[g], g, pc, e)),
          if pc.ReqWrite? && k[g].Requester? then s.sent + {k[g].task} else s.sent)
  }

  // ---- Runs ----

  function StartPc(kind: Kind): Pc
  {
    match kind
    case Requester(_, _) => ReqCheck
    case Handler(_) => ConnRegister
    case Revoker(_) => RevFind
    case Rotator => RotList
  }

  function Init(k: Kinds): State
  {
    State(map g | g in k :: StartPc(k[g]), EMPTY, {})
  }

  /** Some connection may ever be registered for h: the online check refuses requests to other hosts. */
  ghost predicate Servable(k: Kinds, h: Host)
  {
    h != "" && exists c :: c in k && k[c] == Handler(h)
  }

  /** Of the requests that can pass the online check at most one uses the task id t; callers may choose ids. */
  ghost predicate Sole(k: Kinds, t: Task)
  {
    forall r, q | r in k && q in k && k[r].Requester? && k[q].Requester? && k[r].task == t && k[q].task == t
                  && Servable(k, k[r].host) && Servable(k, k[q].host) :: r == q
  }

  datatype Move = Move(g: Gid, e: Event)

  /** With honest unset, agents may name any task id at any time. */
  ghost predicate StepOk(k: Kinds, s: State, m: Move, s': State, honest: bool)
  {
    CanStep(k, s, m.g, m.e) && (honest ==> Honest(k, s, m.e)) && s' == Apply(k, s, m.g, m.e)
  }

  ghost predicate IsRun(k: Kinds, states: seq<State>, moves: seq<Move>, honest: bool)
  {
    && |states| == |moves| + 1
    && (forall i {:trigger moves[i]} | 0 <= i < |moves| :: StepOk(k, states[i], moves[i], states[i + 1], honest))
  }

  /** Some interleaving leads from s to s'. */
  ghost predicate Path(k: Kinds, s: State, s': State, honest: bool)
  {
    exists states, moves :: IsRun(k, states, moves, honest) && states[0] == s && states[|moves|] == s'
  }

  /** s is a state of some interleaving of the goroutines of k, all starting from scratch. */
  ghost predicate Reachable(k: Kinds, s: State)
  {
    Path(k, Init(k), s, true)
  }
}
