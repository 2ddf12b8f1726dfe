/**
 Exec slots of the agent (ws/dispatcher.go): the read loop of each connection takes a slot of that
 connection's semaphore for every exec message, or answers busy; the goroutine it starts registers
 a cancel function under the task id and gives the slot back at its end, in the order of its defers.

 Any number of connections and goroutines interleave; a step is one channel operation or one section
 under the dispatcher's mutex.
 */
module AgentSlots {
  import opened Base

  type Conn = nat
  type Task = string

  /** What has become of an exec message. */
  datatype Phase =
    | Busy          // answered agent_busy
    | Holding       // slot taken, registerTask still to come
    | Running       // its goroutine runs HandleExec
    | Returned      // HandleExec has returned, unregisterTask still to come
    | Unregistered  // the slot still to be given back
    | Finished

  datatype Exec = Exec(conn: Conn, task: Task, phase: Phase, cancelled: bool)

  /** execs: every exec message read so far; sem: how full each connection's channel is. */
  datatype State = State(execs: seq<Exec>, sem: map<Conn, nat>, tasks: map<Task, nat>)

  datatype Step =
    | Read(conn: Conn, task: Task)
    | RegisterTask(i: nat)
    | Return(i: nat)
    | UnregisterTask(i: nat)
    | Release(i: nat)
    | Cancel(task: Task)

  function InUse(s: State, c: Conn): nat
  {
    if c in s.sem then s.sem[c] else 0
  }

  predicate At(s: State, i: nat, phase: Phase)
  {
    i < |s.execs| && s.execs[i].phase == phase
  }

  predicate Enabled(s: State, step: Step)
  {
    match step
    case Read(_, _) => true
    case RegisterTask(i) => At(s, i, Holding)
    case Return(i) => At(s, i, Running)
    case UnregisterTask(i) => At(s, i, Returned)
    case Release(i) => At(s, i, Unregistered) && InUse(s, s.execs[i].conn) > 0   // receiving needs a token
    case Cancel(_) => true
  }

  function Move(s: State, i: nat, phase: Phase): State
    requires i < |s.execs|
  {
    s.(execs := s.execs[i := s.execs[i].(phase := phase)])
  }

  function Apply(max: nat, s: State, step: Step): State
    requires Enabled(s, step)
  {
    match step
    case Read(c, t) =>
      if InUse(s, c) < max
      then State(s.execs + [Exec(c, t, Holding, false)], s.sem[c := InUse(s, c) + 1], s.tasks)
      else s.(execs := s.execs + [Exec(c, t, Busy, false)])
    case RegisterTask(i) => Move(s, i, Running).(tasks := s.tasks[s.execs[i].task := i])
    case Return(i) => Move(s, i, Returned)
    case UnregisterTask(i) => Move(s, i, Unregistered).(tasks := s.tasks - {s.execs[i].task})
    case Release(i) => Move(s, i, Finished).(sem := s.sem[s.execs[i].conn := InUse(s, s.execs[i].conn) - 1])
    case Cancel(t) =>
      if t in s.tasks && s.tasks[t] < |s.execs|
      then s.(execs := s.execs[s.tasks[t] := s.execs[s.tasks[t]].(cancelled := true)])
      else s
  }

  ghost predicate IsRun(max: nat, states: seq<State>, steps: seq<Step>)
  {
    && |states| == |steps| + 1
    && states[0] == State([], map[], map[])
    && (forall i {:trigger steps[i]} | 0 <= i < |steps| ::
          Enabled(states[i], steps[i]) && states[i + 1] == Apply(max, states[i], steps[i]))
  }

  /** Task ids are distinct: an id is read at most once. */
  predicate DistinctTasks(s: State)
  {
    forall i, j | 0 <= i < j < |s.execs| :: s.execs[i].task != s.execs[j].task
  }

  // ---- Invariant ----

  predicate HoldsSlot(phase: Phase)
  {
    phase.Holding? || phase.Running? || phase.Returned? || phase.Unregistered?
  }

  /** The exec messages of c in one of the given phases. */
  function Holders(s: State, c: Conn): set<nat>
  {
    set i: nat | 0 <= i < |s.execs| && s.execs[i].conn == c && HoldsSlot(s.execs[i].phase)
  }

  function InPhase(s: State, c: Conn, phase: Phase): set<nat>
  {
    set i: nat | 0 <= i < |s.execs| && s.execs[i].conn == c && s.execs[i].phase == phase
  }

  function ReadOn(s: State, c: Conn): set<nat>
  {
    set i: nat | 0 <= i < |s.execs| && s.execs[i].conn == c
  }

  predicate SlotsAt(max: nat, s: State, c: Conn)
  {
    InUse(s, c) == |Holders(s, c)| <= max
  }

  ghost predicate SlotsOk(max: nat, s: State)
  {
    forall c :: SlotsAt(max, s, c)
  }

  /** Cancellable exactly while registered. */
  ghost predicate TasksOk(s: State)
  {
    && (forall t | t in s.tasks :: s.tasks[t] < |s.execs| && s.execs[s.tasks[t]].task == t
                                   && (s.execs[s.tasks[t]].phase.Running? || s.execs[s.tasks[t]].phase.Returned?))
    && (forall i | 0 <= i < |s.execs| && (s.execs[i].phase.Running? || s.execs[i].phase.Returned?) ::
          s.execs[i].task in s.tasks && s.tasks[s.execs[i].task] == i)
  }

  lemma HoldersAfterRead(s: State, s': State, e: Exec, c: Conn)
    requires s'.execs == s.execs + [e]
    ensures Holders(s', c) == Holders(s, c) + if e.conn == c && HoldsSlot(e.phase) then {|s.execs|} else {}
    ensures |s.execs| !in Holders(s, c)
  {
  }

  lemma HoldersAfterMove(s: State, s': State, i: nat, c: Conn)
    requires i < |s.execs| == |s'.execs|
    requires s'.execs[i].conn == s.execs[i].conn
    requires forall j | 0 <= j < |s.execs| && j != i :: s'.execs[j] == s.execs[j]
    ensures Holders(s', c) - {i} == Holders(s, c) - {i}
  {
  }

  lemma SameHolders(s: State, s': State, i: nat, c: Conn)
    requires i < |s.execs| == |s'.execs|
    requires s'.execs[i].conn == s.execs[i].conn && HoldsSlot(s'.execs[i].phase) == HoldsSlot(s.execs[i].phase)
    requires forall j | 0 <= j < |s.execs| && j != i :: s'.execs[j] == s.execs[j]
    ensures Holders(s', c) == Holders(s, c)
  {
    HoldersAfterMove(s, s', i, c);
    assert i in Holders(s', c) <==> i in Holders(s, c);
    assert Holders(s', c) == (Holders(s', c) - {i}) + if i in Holders(s', c) then {i} else {};
    assert Holders(s, c) == (Holders(s, c) - {i}) + if i in Holders(s, c) then {i} else {};
  }

  lemma SlotsAfterRead(max: nat, s: State, c: Conn, d: Conn, t: Task)
    requires SlotsAt(max, s, c)
    ensures SlotsAt(max, Apply(max, s, Read(d, t)), c)
  {
    var s' := Apply(max, s, Read(d, t));
    HoldersAfterRead(s, s', s'.execs[|s.execs|], c);
  }

  lemma SlotsAfterRelease(max: nat, s: State, c: Conn, i: nat)
    requires SlotsAt(max, s, c) && Enabled(s, Release(i))
    ensures SlotsAt(max, Apply(max, s, Release(i)), c)
  {
    var s' := Apply(max, s, Release(i));
    HoldersAfterMove(s, s', i, c);
    assert i !in Holders(s', c);
    assert Holders(s', c) == Holders(s, c) - {i};
    assert i in Holders(s, c) <==> s.execs[i].conn == c;
  }

  lemma SlotsAfterOther(max: nat, s: State, c: Conn, step: Step)
    requires SlotsAt(max, s, c) && Enabled(s, step) && !step.Read? && !step.Release?
    ensures SlotsAt(max, Apply(max, s, step), c)
  {
    var s' := Apply(max, s, step);
    if !step.Cancel? {
      SameHolders(s, s', step.i, c);
    } else if step.task in s.tasks && s.tasks[step.task] < |s.execs| {
      SameHolders(s, s', s.tasks[step.task], c);
    }
  }

  lemma HoldersAfter(max: nat, s: State, step: Step, c: Conn)
    requires Enabled(s, step) && SlotsAt(max, s, c)
    ensures SlotsAt(max, Apply(max, s, step), c)
  {
    if step.Read? {
      SlotsAfterRead(max, s, c, step.conn, step.task);
    } else if step.Release? {
      SlotsAfterRelease(max, s, c, step.i);
    } else {
      SlotsAfterOther(max, s, c, step);
    }
  }

  lemma StepKeepsSlots(max: nat, s: State, step: Step)
    requires Enabled(s, step) && SlotsOk(max, s)
    ensures SlotsOk(max, Apply(max, s, step))
  {
    forall c ensures SlotsAt(max, Apply(max, s, step), c) {
      HoldersAfter(max, s, step, c);
    }
  }

  /** One exec moves on, and tasks changes only at its id. */
  lemma MoveKeepsTasks(max: nat, s: State, step: Step)
    requires Enabled(s, step) && TasksOk(s) && DistinctTasks(s) && !step.Read? && !step.Cancel?
    ensures TasksOk(Apply(max, s, step))
  {
    var s' := Apply(max, s, step);
    var i := step.i;
    assert |s'.execs| == |s.execs| && s'.execs[i].task == s.execs[i].task;
    assert forall j | 0 <= j < |s.execs| && j != i :: s'.execs[j] == s.execs[j] && s.execs[j].task != s.execs[i].task;
  }

  lemma StepKeepsTasks(max: nat, s: State, step: Step)
    requires Enabled(s, step) && TasksOk(s) && DistinctTasks(Apply(max, s, step))
    ensures TasksOk(Apply(max, s, step)) && DistinctTasks(s)
  {
    var s' := Apply(max, s, step);
    assert |s.execs| <= |s'.execs| && forall i | 0 <= i < |s.execs| :: s'.execs[i].task == s.execs[i].task;
    if !step.Read? && !step.Cancel? {
      MoveKeepsTasks(max, s, step);
    }
  }

  lemma {:induction false} RunKeepsSlots(max: nat, states: seq<State>, steps: seq<Step>, n: nat)
    requires IsRun(max, states, steps) && n <= |steps|
    ensures SlotsOk(max, states[n])
  {
    if n == 0 {
      assert forall c :: Holders(states[0], c) == {};
    } else {
      RunKeepsSlots(max, states, steps, n - 1);
      assert Enabled(states[n - 1], steps[n - 1]) && states[n - 1 + 1] == Apply(max, states[n - 1], steps[n - 1]);
      StepKeepsSlots(max, states[n - 1], steps[n - 1]);
    }
  }

  lemma {:induction false} RunKeepsTasks(max: nat, states: seq<State>, steps: seq<Step>, n: nat)
    requires IsRun(max, states, steps) && n <= |steps| && DistinctTasks(states[n])
    ensures TasksOk(states[n])
  {
    if n > 0 {
      assert Enabled(states[n - 1], steps[n - 1]) && states[n - 1 + 1] == Apply(max, states[n - 1], steps[n - 1]);
      var s, s' := states[n - 1], states[n];
      assert |s.execs| <= |s'.execs| && forall i | 0 <= i < |s.execs| :: s'.execs[i].task == s.execs[i].task;
      RunKeepsTasks(max, states, steps, n - 1);
      StepKeepsTasks(max, s, steps[n - 1]);
    }
  }

  // ---- Theorems ----

  /** On every connection the slots in use are the exec goroutines that have not finished, at most max. */
  lemma SlotsAreRunningExecs(max: nat, states: seq<State>, steps: seq<Step>, n: nat, c: Conn)
    requires IsRun(max, states, steps) && n <= |steps|
    ensures InUse(states[n], c) == |Holders(states[n], c)| <= max
  {
    RunKeepsSlots(max, states, steps, n);
    assert SlotsAt(max, states[n], c);
  }

  /** With distinct ids, what can be cancelled holds a slot, and what runs can be cancelled. */
  lemma CancellableHoldSlots(max: nat, states: seq<State>, steps: seq<Step>, n: nat, t: Task)
    requires IsRun(max, states, steps) && n <= |steps| && DistinctTasks(states[n])
    ensures var s := states[n];
            && (t in s.tasks ==>
                  s.tasks[t] < |s.execs| && s.execs[s.tasks[t]].task == t
                  && s.tasks[t] in Holders(s, s.execs[s.tasks[t]].conn))
            && (forall i | 0 <= i < |s.execs| && s.execs[i].task == t && s.execs[i].phase.Running? ::
                  Lookup(s.tasks, t) == Some(i))
  {
    RunKeepsTasks(max, states, steps, n);
  }

  /** A cancel reaches the goroutine of its task and no other. */
  lemma CancelReachesItsTask(max: nat, states: seq<State>, steps: seq<Step>, n: nat, t: Task)
    requires IsRun(max, states, steps) && n <= |steps| && DistinctTasks(states[n])
    ensures var s, s' := states[n], Apply(max, states[n], Cancel(t));
            && |s'.execs| == |s.execs|
            && (forall i | 0 <= i < |s.execs| && s.execs[i].task != t :: s'.execs[i] == s.execs[i])
            && (forall i | 0 <= i < |s.execs| && s.execs[i].task == t && s.execs[i].phase.Running? ::
                  s'.execs[i].cancelled)
  {
    RunKeepsTasks(max, states, steps, n);
  }

  lemma {:induction false} DisjointSize(a: set<nat>, b: set<nat>)
    requires a !! b
    ensures |a + b| == |a| + |b|
  {
  }

  /** Every exec message read on a connection was answered busy, holds a slot, or has finished. */
  lemma NoExecIsLost(max: nat, states: seq<State>, steps: seq<Step>, n: nat, c: Conn)
    requires IsRun(max, states, steps) && n <= |steps|
    ensures var s := states[n];
            |ReadOn(s, c)| == |InPhase(s, c, Busy)| + InUse(s, c) + |InPhase(s, c, Finished)|
  {
    RunKeepsSlots(max, states, steps, n);
    var s := states[n];
    assert SlotsAt(max, s, c);
    var busy, held, done := InPhase(s, c, Busy), Holders(s, c), InPhase(s, c, Finished);
    assert ReadOn(s, c) == busy + held + done;
    DisjointSize(busy, held);
    DisjointSize(busy + held, done);
  }

  /** The exec messages of c that were taken and are not over: neither answered busy nor finished. */
  function Unfinished(s: State, c: Conn): set<nat>
  {
    set i: nat | 0 <= i < |s.execs| && s.execs[i].conn == c && s.execs[i].phase != Busy && s.execs[i].phase != Finished
  }

  lemma UnfinishedHold(s: State, c: Conn)
    ensures Unfinished(s, c) == Holders(s, c)
  {
  }

  /**
   In every reachable state: an exec message that is read is answered busy if and only if exactly max
   execs of its connection are unfinished; otherwise it becomes one of them. Nothing else changes.
   */
  lemma BusyIff(max: nat, states: seq<State>, steps: seq<Step>, n: nat, c: Conn, t: Task)
    requires IsRun(max, states, steps) && n <= |steps|
    ensures var s, s' := states[n], Apply(max, states[n], Read(c, t));
            && |s'.execs| == |s.execs| + 1 && s'.execs[..|s.execs|] == s.execs
            && s'.execs[|s.execs|].conn == c && s'.execs[|s.execs|].task == t && !s'.execs[|s.execs|].cancelled
            && (s'.execs[|s.execs|].phase == Busy <==> |Unfinished(s, c)| == max)
            && (|Unfinished(s, c)| != max ==> |Unfinished(s, c)| < max
                                              && Unfinished(s', c) == Unfinished(s, c) + {|s.execs|})
            && (|Unfinished(s, c)| == max ==> Unfinished(s', c) == Unfinished(s, c))
            && s'.tasks == s.tasks
  {
    RunKeepsSlots(max, states, steps, n);
    var s := states[n];
    assert SlotsAt(max, s, c);
    UnfinishedHold(s, c);
    UnfinishedHold(Apply(max, s, Read(c, t)), c);
    HoldersAfterRead(s, Apply(max, s, Read(c, t)), Apply(max, s, Read(c, t)).execs[|s.execs|], c);
  }

  /** The j-th step read the exec message i, when exactly max execs of its connection were unfinished. */
  ghost predicate ReadWhenFull(max: nat, states: seq<State>, steps: seq<Step>, i: nat, e: Exec, j: nat)
    requires IsRun(max, states, steps)
  {
    && j < |steps| && steps[j] == Read(e.conn, e.task) && |states[j].execs| == i
    && |Unfinished(states[j], e.conn)| == max
  }

  /** What is answered busy was answered so before, or has just been read. */
  lemma BusyBefore(max: nat, s: State, step: Step, i: nat)
    requires Enabled(s, step)
    requires i < |Apply(max, s, step).execs| && Apply(max, s, step).execs[i].phase == Busy
    ensures i < |s.execs| ==> var e, e' := s.execs[i], Apply(max, s, step).execs[i];
                              e.phase == Busy && e.conn == e'.conn && e.task == e'.task
    ensures i >= |s.execs| ==> step.Read? && i == |s.execs|
  {
  }

  /** Over every run: what was answered busy was read when all slots of its connection were taken. */
  lemma {:induction false} BusyWasFull(max: nat, states: seq<State>, steps: seq<Step>, n: nat, i: nat)
    requires IsRun(max, states, steps) && n <= |steps|
    requires i < |states[n].execs| && states[n].execs[i].phase == Busy
    ensures exists j: nat :: j < n && ReadWhenFull(max, states, steps, i, states[n].execs[i], j)
  {
    if n > 0 {
      var s, step := states[n - 1], steps[n - 1];
      assert Enabled(s, step) && states[n - 1 + 1] == Apply(max, s, step);
      BusyBefore(max, s, step, i);
      if i < |s.execs| {
        BusyWasFull(max, states, steps, n - 1, i);
        var j: nat :| j < n - 1 && ReadWhenFull(max, states, steps, i, s.execs[i], j);
        assert ReadWhenFull(max, states, steps, i, states[n].execs[i], j);
      } else {
        BusyIff(max, states, steps, n - 1, step.conn, step.task);
        assert ReadWhenFull(max, states, steps, i, states[n].execs[i], n - 1);
      }
    }
  }

  /** A slot holder can always go on to give its slot back: the receive never blocks. */
  lemma HoldersCanMove(max: nat, states: seq<State>, steps: seq<Step>, n: nat, i: nat)
    requires IsRun(max, states, steps) && n <= |steps| && i < |states[n].execs| && HoldsSlot(states[n].execs[i].phase)
    ensures var s := states[n];
            Enabled(s, match s.execs[i].phase
                       case Holding => RegisterTask(i)
                       case Running => Return(i)
                       case Returned => UnregisterTask(i)
                       case _ => Release(i))
  {
    RunKeepsSlots(max, states, steps, n);
    var c := states[n].execs[i].conn;
    assert i in Holders(states[n], c);
    assert SlotsAt(max, states[n], c);
  }

  /** The bound is per connection: with max 1, two connections run two execs at once. */
  lemma BoundIsPerConnection(t: Task, u: Task)
    ensures exists states, steps :: IsRun(1, states, steps) && |steps| == 2
                                    && Holders(states[2], 0) == {0} && Holders(states[2], 1) == {1}
  {
    var a, b := Exec(0, t, Holding, false), Exec(1, u, Holding, false);
    var states := [State([], map[], map[]), State([a], map[0 := 1], map[]), State([a, b], map[0 := 1, 1 := 1], map[])];
    var steps := [Read(0, t), Read(1, u)];
    assert IsRun(1, states, steps);
    assert Holders(states[2], 0) == {0} && Holders(states[2], 1) == {1};
  }
}
