/**
 When a waiter is lost. With an id of its own a request is never lost; with an id that another request
 shares there is always an interleaving that loses it, and so there is when an agent may answer an id
 before it was sent.
 */
module RelayLostWaiter {
  import opened Base
  import opened Relay
  import opened RelayMachine
  import opened RelayInvariant
  import opened RelayTheorems

  // ---- Building runs ----

  /** The goroutines that have begun and where they are; nobody else has moved. */
  datatype Config = Config(at: map<Gid, Pc>, tb: Tables, sent: set<Task>)

  function Whole(k: Kinds, c: Config): State
  {
    State(Init(k).pcs + c.at, c.tb, c.sent)
  }

  /** The other goroutines that have begun hold no lock. */
  ghost predicate IdleBut(k: Kinds, at: map<Gid, Pc>, g: Gid)
  {
    forall p | p in at && p in k && p != g :: Holds(k[p], at[p]) == {}
  }

  /** g, being at pc, may take a step. */
  ghost predicate CanGo(k: Kinds, at: map<Gid, Pc>, tb: Tables, sent: set<Task>, g: Gid, pc: Pc, e: Event, honest: bool)
  {
    && g in k && IdleBut(k, at, g) && !Finished(pc) && EventFits(tb, g, pc, e)
    && (honest ==> (e.ReadStdout? ==> e.t in sent) && !e.ReadResult?)
  }

  function Gone(k: Kinds, at: map<Gid, Pc>, tb: Tables, sent: set<Task>, g: Gid, pc: Pc, e: Event): Config
    requires g in k
  {
    Config(at[g := NextPc(k[g], g, pc, tb, e)], Do(tb, Effect(k[g], g, pc, e)),
           if pc.ReqWrite? && k[g].Requester? then sent + {k[g].task} else sent)
  }

  /** R holds the start and, with a configuration, whatever beginning or moving a goroutine makes of it. */
  ghost predicate Closed(k: Kinds, R: iset<Config>, honest: bool)
  {
    && Config(map[], EMPTY, {}) in R
    && (forall at, tb, sent, g {:trigger Config(at[g := StartPc(k[g])], tb, sent)} |
          Config(at, tb, sent) in R && g in k && g !in at :: Config(at[g := StartPc(k[g])], tb, sent) in R)
    && (forall at, tb, sent, g, pc, e {:trigger Gone(k, at, tb, sent, g, pc, e)} |
          Config(at[g := pc], tb, sent) in R && CanGo(k, at, tb, sent, g, pc, e, honest) ::
          Gone(k, at, tb, sent, g, pc, e) in R)
  }

  lemma Extend(k: Kinds, s: State, g: Gid, e: Event, honest: bool)
    requires Path(k, Init(k), s, honest) && CanStep(k, s, g, e) && (honest ==> Honest(k, s, e))
    ensures Path(k, Init(k), Apply(k, s, g, e), honest)
  {
    var states, moves :| IsRun(k, states, moves, honest) && states[0] == Init(k) && states[|moves|] == s;
    var states', moves' := states + [Apply(k, s, g, e)], moves + [Move(g, e)];
    forall i {:trigger moves'[i]} | 0 <= i < |moves'| ensures StepOk(k, states'[i], moves'[i], states'[i + 1], honest) {
      if i < |moves| {
        assert moves'[i] == moves[i] && states'[i] == states[i] && states'[i + 1] == states[i + 1];
      }
    }
    assert IsRun(k, states', moves', honest) && states'[0] == Init(k) && states'[|moves'|] == Apply(k, s, g, e);
  }

  /** The configurations that interleavings reach. */
  ghost function Paths(k: Kinds, honest: bool): iset<Config>
  {
    iset c: Config | c.at.Keys <= k.Keys && Path(k, Init(k), Whole(k, c), honest)
  }

  lemma GoIsStep(k: Kinds, at: map<Gid, Pc>, tb: Tables, sent: set<Task>, g: Gid, pc: Pc, e: Event, honest: bool)
    requires at.Keys <= k.Keys && CanGo(k, at, tb, sent, g, pc, e, honest)
    ensures CanStep(k, Whole(k, Config(at[g := pc], tb, sent)), g, e)
  {
    var s := Whole(k, Config(at[g := pc], tb, sent));
    assert s.pcs[g] == pc;
    assert forall p | p in s.pcs && p in k && p != g :: Holds(k[p], s.pcs[p]) == {};
  }

  lemma GoneIsApply(k: Kinds, at: map<Gid, Pc>, tb: Tables, sent: set<Task>, g: Gid, pc: Pc, e: Event)
    requires at.Keys <= k.Keys && g in k
    ensures Whole(k, Gone(k, at, tb, sent, g, pc, e)) == Apply(k, Whole(k, Config(at[g := pc], tb, sent)), g, e)
  {
    var pc' := NextPc(k[g], g, pc, tb, e);
    assert Init(k).pcs + at[g := pc'] == (Init(k).pcs + at[g := pc])[g := pc'];
    assert (Init(k).pcs + at[g := pc])[g] == pc;
  }

  lemma GoneInPaths(k: Kinds, at: map<Gid, Pc>, tb: Tables, sent: set<Task>, g: Gid, pc: Pc, e: Event, honest: bool)
    requires Config(at[g := pc], tb, sent) in Paths(k, honest) && CanGo(k, at, tb, sent, g, pc, e, honest)
    ensures Gone(k, at, tb, sent, g, pc, e) in Paths(k, honest)
  {
    var s := Whole(k, Config(at[g := pc], tb, sent));
    assert at.Keys <= at[g := pc].Keys;
    GoIsStep(k, at, tb, sent, g, pc, e, honest);
    GoneIsApply(k, at, tb, sent, g, pc, e);
    Extend(k, s, g, e, honest);
  }

  lemma PathsClosed(k: Kinds, honest: bool)
    ensures Closed(k, Paths(k, honest), honest)
  {
    var R := Paths(k, honest);
    assert Config(map[], EMPTY, {}) in R by {
      assert Whole(k, Config(map[], EMPTY, {})) == Init(k);
      assert IsRun(k, [Init(k)], [], honest) && [Init(k)][0] == Init(k);
    }
    forall at, tb, sent, g | Config(at, tb, sent) in R && g in k && g !in at
      ensures Config(at[g := StartPc(k[g])], tb, sent) in R
    {
      assert Whole(k, Config(at[g := StartPc(k[g])], tb, sent)) == Whole(k, Config(at, tb, sent));
    }
    forall at, tb, sent, g, pc, e | Config(at[g := pc], tb, sent) in R && CanGo(k, at, tb, sent, g, pc, e, honest)
      ensures Gone(k, at, tb, sent, g, pc, e) in R
    {
      GoneInPaths(k, at, tb, sent, g, pc, e, honest);
    }
  }

  /** One step of g, from pc to pc' and from tb to tb'. */
  lemma Go(k: Kinds, R: iset<Config>, honest: bool, at: map<Gid, Pc>, tb: Tables, sent: set<Task>,
           g: Gid, pc: Pc, e: Event, pc': Pc, tb': Tables)
    requires Closed(k, R, honest) && Config(at[g := pc], tb, sent) in R && CanGo(k, at, tb, sent, g, pc, e, honest)
    requires !pc.ReqWrite? && pc' == NextPc(k[g], g, pc, tb, e) && tb' == Do(tb, Effect(k[g], g, pc, e))
    ensures Config(at[g := pc'], tb', sent) in R
  {
    assert Gone(k, at, tb, sent, g, pc, e) == Config(at[g := pc'], tb', sent);
  }

  /** The step that writes the task to the agent. */
  lemma GoWrite(k: Kinds, R: iset<Config>, honest: bool, at: map<Gid, Pc>, tb: Tables, sent: set<Task>, r: Gid, c: Gid)
    requires Closed(k, R, honest) && Config(at[r := ReqWrite(c)], tb, sent) in R && r in k && k[r].Requester?
    requires IdleBut(k, at, r) && c !in tb.closed
    ensures Config(at[r := ReqWait(c)], tb, sent + {k[r].task}) in R
  {
    assert CanGo(k, at, tb, sent, r, ReqWrite(c), WriteOk, honest);
    assert Gone(k, at, tb, sent, r, ReqWrite(c), WriteOk) == Config(at[r := ReqWait(c)], tb, sent + {k[r].task});
  }

  /** A goroutine that has not begun may begin. */
  lemma Begin(k: Kinds, R: iset<Config>, honest: bool, at: map<Gid, Pc>, tb: Tables, sent: set<Task>, g: Gid)
    requires Closed(k, R, honest) && Config(at, tb, sent) in R && g in k && g !in at
    ensures Config(at[g := StartPc(k[g])], tb, sent) in R
  {
    assert Config(at[g := StartPc(k[g])], tb, sent) in R;
  }

  lemma Connects(k: Kinds, R: iset<Config>, honest: bool, m: map<Gid, Pc>, tb: Tables, c: Gid)
    requires Closed(k, R, honest)
    requires c in k && c !in m && k[c].Handler? && Config(m, tb, {}) in R && IdleBut(k, m, c)
    ensures Config(m[c := ConnRead], PutConnection(tb, k[c].host, c), {}) in R
  {
    Begin(k, R, honest, m, tb, {}, c);
    Go(k, R, honest, m, tb, {}, c, ConnRegister, Tick, ConnRead, PutConnection(tb, k[c].host, c));
  }

  /** A request finds its host online and registers. */
  lemma Registers(k: Kinds, R: iset<Config>, honest: bool, m: map<Gid, Pc>, tb: Tables, sent: set<Task>, r: Gid)
    requires Closed(k, R, honest)
    requires r in k && r !in m && Config(m, tb, sent) in R && k[r].Requester? && IdleBut(k, m, r)
    requires k[r].host != "" && k[r].host in tb.conns
    ensures Config(m[r := ReqMapHost], PutFuture(tb, k[r].task, r), sent) in R
  {
    Begin(k, R, honest, m, tb, sent, r);
    Go(k, R, honest, m, tb, sent, r, ReqCheck, Tick, ReqRegister, tb);
    Go(k, R, honest, m, tb, sent, r, ReqRegister, Tick, ReqMapHost, PutFuture(tb, k[r].task, r));
  }

  /** Then it maps its host and finds its connection. */
  lemma Finds(k: Kinds, R: iset<Config>, honest: bool, m: map<Gid, Pc>, tb: Tables, sent: set<Task>, r: Gid, c: Gid)
    requires Closed(k, R, honest)
    requires r in k && Config(m[r := ReqMapHost], tb, sent) in R && k[r].Requester? && IdleBut(k, m, r)
    requires Lookup(tb.conns, k[r].host) == Some(c)
    ensures Config(m[r := ReqLock(c)], PutHost(tb, k[r].task, k[r].host), sent) in R
  {
    var mapped := PutHost(tb, k[r].task, k[r].host);
    Go(k, R, honest, m, tb, sent, r, ReqMapHost, Tick, ReqFind, mapped);
    Go(k, R, honest, m, mapped, sent, r, ReqFind, Tick, ReqLock(c), mapped);
  }

  /** Then it writes to the agent and waits. */
  lemma WritesTask(k: Kinds, R: iset<Config>, honest: bool, m: map<Gid, Pc>, tb: Tables,
                   sent: set<Task>, r: Gid, c: Gid)
    requires Closed(k, R, honest)
    requires r in k && Config(m[r := ReqLock(c)], tb, sent) in R && k[r].Requester? && IdleBut(k, m, r)
    requires c !in tb.closed
    ensures Config(m[r := ReqWait(c)], PutHost(tb, k[r].task, k[r].host), sent + {k[r].task}) in R
  {
    var mapped := PutHost(tb, k[r].task, k[r].host);
    Go(k, R, honest, m, tb, sent, r, ReqLock(c), Tick, ReqRemap(c), tb);
    Go(k, R, honest, m, tb, sent, r, ReqRemap(c), Tick, ReqWrite(c), mapped);
    GoWrite(k, R, honest, m, mapped, sent, r, c);
  }

  /** The tables when r has registered and sent. */
  function Sent(tb: Tables, t: Task, h: Host, r: Gid): Tables
  {
    PutHost(PutHost(PutFuture(tb, t, r), t, h), t, h)
  }

  /** A request to a connected host goes all the way to its wait. */
  lemma Sends(k: Kinds, R: iset<Config>, honest: bool, m: map<Gid, Pc>, tb: Tables, sent: set<Task>, r: Gid, c: Gid)
    requires Closed(k, R, honest)
    requires r in k && r !in m && Config(m, tb, sent) in R && k[r].Requester? && IdleBut(k, m, r)
    requires k[r].host != "" && Lookup(tb.conns, k[r].host) == Some(c) && c !in tb.closed
    ensures Config(m[r := ReqWait(c)], Sent(tb, k[r].task, k[r].host, r), sent + {k[r].task}) in R
  {
    var t, h := k[r].task, k[r].host;
    Registers(k, R, honest, m, tb, sent, r);
    Finds(k, R, honest, m, PutFuture(tb, t, r), sent, r, c);
    WritesTask(k, R, honest, m, PutHost(PutFuture(tb, t, r), t, h), sent, r, c);
  }

  /** The handler's read fails. */
  lemma ReadFails(k: Kinds, R: iset<Config>, honest: bool, m: map<Gid, Pc>, tb: Tables, sent: set<Task>, c: Gid)
    requires Closed(k, R, honest)
    requires c in k && Config(m[c := ConnRead], tb, sent) in R && k[c].Handler? && IdleBut(k, m, c)
    ensures Config(m[c := ConnUnregister], tb, sent) in R
  {
    Go(k, R, honest, m, tb, sent, c, ConnRead, ReadError, ConnUnregister, tb);
  }

  lemma Detaches(k: Kinds, R: iset<Config>, honest: bool, m: map<Gid, Pc>, tb: Tables, sent: set<Task>, c: Gid)
    requires Closed(k, R, honest)
    requires c in k && Config(m[c := ConnRead], tb, sent) in R && k[c].Handler? && IdleBut(k, m, c)
    ensures Config(m[c := Collect(c)], DropConnection(tb, k[c].host), sent) in R
  {
    ReadFails(k, R, honest, m, tb, sent, c);
    Go(k, R, honest, m, tb, sent, c, ConnUnregister, Tick, Collect(c), DropConnection(tb, k[c].host));
  }

  lemma Resolves(k: Kinds, R: iset<Config>, honest: bool, m: map<Gid, Pc>, tb: Tables, sent: set<Task>, c: Gid)
    requires Closed(k, R, honest)
    requires c in k && Config(m[c := Collect(c)], tb, sent) in R && k[c].Handler? && IdleBut(k, m, c)
    requires TasksOf(tb, k[c].host) == {}
    ensures Config(m[c := ConnClose], tb, sent) in R
  {
    Go(k, R, honest, m, tb, sent, c, Collect(c), Tick, Resolve(c, {}), tb);
    Go(k, R, honest, m, tb, sent, c, Resolve(c, {}), Tick, ConnClose, tb);
  }

  lemma ClosesLast(k: Kinds, R: iset<Config>, honest: bool, m: map<Gid, Pc>, tb: Tables, sent: set<Task>, c: Gid)
    requires Closed(k, R, honest)
    requires c in k && Config(m[c := ConnClose], tb, sent) in R && k[c].Handler? && IdleBut(k, m, c)
    ensures Config(m[c := ConnDone], CloseConnection(tb, c), sent) in R
  {
    Go(k, R, honest, m, tb, sent, c, ConnClose, Tick, ConnDone, CloseConnection(tb, c));
  }

  /** A handler whose host has no tasks left reads an error, unregisters and is done. */
  lemma Leaves(k: Kinds, R: iset<Config>, honest: bool, m: map<Gid, Pc>, tb: Tables, sent: set<Task>, c: Gid)
    requires Closed(k, R, honest)
    requires c in k && Config(m[c := ConnRead], tb, sent) in R && k[c].Handler?
    requires IdleBut(k, m, c) && TasksOf(tb, k[c].host) == {}
    ensures Config(m[c := ConnDone], CloseConnection(DropConnection(tb, k[c].host), c), sent) in R
  {
    var off := DropConnection(tb, k[c].host);
    assert TasksOf(off, k[c].host) == {};
    Detaches(k, R, honest, m, tb, sent, c);
    Resolves(k, R, honest, m, off, sent, c);
    ClosesLast(k, R, honest, m, off, sent, c);
  }

  // ---- What it means to be lost ----

  ghost predicate Lost(s: State, r: Gid, c: Gid)
  {
    c in s.pcs && s.pcs[c].ConnDone? && WaitsOn(s, r, c) && !Answerable(s, r)
  }

  /** No interleaving leaves r waiting on an empty channel of a connection whose handler has unregistered. */
  ghost predicate Safe(k: Kinds, r: Gid, c: Gid)
  {
    forall s | Reachable(k, s) && c in s.pcs && (s.pcs[c].ConnClose? || s.pcs[c].ConnDone?) && WaitsOn(s, r, c) ::
      Answerable(s, r)
  }

  // ---- A shared id ----

  /** A request gives up waiting. */
  lemma TimesOut(k: Kinds, R: iset<Config>, m: map<Gid, Pc>, tb: Tables, sent: set<Task>, q: Gid, c: Gid)
    requires Closed(k, R, true) && IdleBut(k, m, q)
    requires q in k && Config(m[q := ReqWait(c)], tb, sent) in R && k[q].Requester?
    ensures Config(m[q := UnPending(TimedOut)], tb, sent) in R
  {
    Go(k, R, true, m, tb, sent, q, ReqWait(c), Timeout, UnPending(TimedOut), tb);
  }

  lemma CleansPending(k: Kinds, R: iset<Config>, m: map<Gid, Pc>, tb: Tables, sent: set<Task>, q: Gid)
    requires Closed(k, R, true) && IdleBut(k, m, q)
    requires q in k && Config(m[q := UnPending(TimedOut)], tb, sent) in R && k[q].Requester?
    ensures Config(m[q := UnHost(TimedOut)], DropPending(tb, k[q].task), sent) in R
  {
    Go(k, R, true, m, tb, sent, q, UnPending(TimedOut), Tick, UnHost(TimedOut), DropPending(tb, k[q].task));
  }

  lemma CleansHost(k: Kinds, R: iset<Config>, m: map<Gid, Pc>, tb: Tables, sent: set<Task>, q: Gid)
    requires Closed(k, R, true) && IdleBut(k, m, q)
    requires q in k && Config(m[q := UnHost(TimedOut)], tb, sent) in R && k[q].Requester?
    ensures Config(m[q := UnBuffer(TimedOut)], DropHost(tb, k[q].task), sent) in R
  {
    Go(k, R, true, m, tb, sent, q, UnHost(TimedOut), Tick, UnBuffer(TimedOut), DropHost(tb, k[q].task));
  }

  /** The tables when t has been cleaned up. */
  function Cleaned(tb: Tables, t: Task): Tables
  {
    DropBuffer(DropHost(DropPending(tb, t), t), t)
  }

  /** It then cleans up, under its own id. */
  lemma CleansUp(k: Kinds, R: iset<Config>, m: map<Gid, Pc>, tb: Tables, sent: set<Task>, q: Gid)
    requires Closed(k, R, true)
    requires q in k && Config(m[q := UnPending(TimedOut)], tb, sent) in R && k[q].Requester? && IdleBut(k, m, q)
    ensures Config(m[q := ReqDone(TimedOut)], Cleaned(tb, k[q].task), sent) in R
  {
    var two := DropHost(DropPending(tb, k[q].task), k[q].task);
    CleansPending(k, R, m, tb, sent, q);
    CleansHost(k, R, m, DropPending(tb, k[q].task), sent, q);
    Go(k, R, true, m, two, sent, q, UnBuffer(TimedOut), Tick, ReqDone(TimedOut), DropBuffer(two, k[q].task));
  }

  /** Both handlers, or the one of both, have connected. */
  function Connected(k: Kinds, c: Gid, d: Gid): Tables
    requires c in k && d in k && k[c].Handler? && k[d].Handler?
  {
    var tb := PutConnection(EMPTY, k[c].host, c);
    if c == d then tb else PutConnection(tb, k[d].host, d)
  }

  lemma BothConnect(k: Kinds, R: iset<Config>, c: Gid, d: Gid)
    requires Closed(k, R, true) && c in k && d in k && k[c].Handler? && k[d].Handler?
    ensures Config(map[][c := ConnRead][d := ConnRead], Connected(k, c, d), {}) in R
  {
    Connects(k, R, true, map[], EMPTY, c);
    if c == d {
      assert map[][c := ConnRead][d := ConnRead] == map[][c := ConnRead];
    } else {
      Connects(k, R, true, map[][c := ConnRead], PutConnection(EMPTY, k[c].host, c), d);
    }
  }

  /** q sends through d and times out. */
  lemma SendsAndTimesOut(k: Kinds, R: iset<Config>, m: map<Gid, Pc>, tb: Tables, q: Gid, d: Gid)
    requires Closed(k, R, true) && IdleBut(k, m, q)
    requires q in k && q !in m && Config(m, tb, {}) in R && k[q].Requester?
    requires k[q].host != "" && Lookup(tb.conns, k[q].host) == Some(d) && d !in tb.closed
    ensures Config(m[q := UnPending(TimedOut)], Sent(tb, k[q].task, k[q].host, q), {k[q].task}) in R
  {
    var none: set<Task> := {};
    Sends(k, R, true, m, tb, none, q, d);
    assert none + {k[q].task} == {k[q].task};
    TimesOut(k, R, m, Sent(tb, k[q].task, k[q].host, q), {k[q].task}, q, d);
  }

  /** A goroutine that reads or waits holds no lock. */
  lemma WaitersIdle(k: Kinds, r: Gid, c: Gid, d: Gid, p: Gid)
    ensures var m := map[][c := ConnRead][d := ConnRead]; IdleBut(k, m, p) && IdleBut(k, m[r := ReqWait(c)], p)
    ensures IdleBut(k, map[][c := ConnRead][d := ConnRead][p := UnPending(TimedOut)], r)
  {
  }

  lemma ConnectedIs(k: Kinds, c: Gid, d: Gid)
    requires c in k && d in k && k[c].Handler? && k[d].Handler? && (k[c].host == k[d].host ==> c == d)
    ensures var tb := Connected(k, c, d);
            && Lookup(tb.conns, k[c].host) == Some(c) && Lookup(tb.conns, k[d].host) == Some(d)
            && tb.closed == {} && tb.hosts == map[]
  {
  }

  /** q sends through d and times out; r then sends through c. */
  lemma BothSend(k: Kinds, R: iset<Config>, r: Gid, q: Gid, c: Gid, d: Gid) returns (start: Tables)
    requires Closed(k, R, true)
    requires r in k && q in k && c in k && d in k && r != q && k[r].Requester? && k[q].Requester?
    requires k[c] == Handler(k[r].host) && k[d] == Handler(k[q].host) && k[r].host != "" && k[q].host != ""
    requires k[r].task == k[q].task && (k[r].host == k[q].host ==> c == d)
    ensures var t := k[r].task;
            Config(map[][c := ConnRead][d := ConnRead][r := ReqWait(c)][q := UnPending(TimedOut)],
                   Sent(Sent(start, t, k[q].host, q), t, k[r].host, r), {t}) in R
    ensures start.hosts == map[]
  {
    start := Connected(k, c, d);
    var t, tb, m := k[r].task, start, map[][c := ConnRead][d := ConnRead];
    BothConnect(k, R, c, d);
    ConnectedIs(k, c, d);
    WaitersIdle(k, r, c, d, q);
    SendsAndTimesOut(k, R, m, tb, q, d);
    Sends(k, R, true, m[q := UnPending(TimedOut)], Sent(tb, t, k[q].host, q), {t}, r, c);
    assert {t} + {t} == {t};
    assert m[q := UnPending(TimedOut)][r := ReqWait(c)] == m[r := ReqWait(c)][q := UnPending(TimedOut)];
  }

  lemma CleanedTables(tb: Tables, t: Task, hq: Host, q: Gid, h: Host, r: Gid)
    requires tb.hosts == map[] && r != q
    ensures var tb' := Cleaned(Sent(Sent(tb, t, hq, q), t, h, r), t);
            TasksOf(tb', h) == {} && Lookup(tb'.chans, r) == Some(Chan(None, []))
  {
  }

  /** The handler of c leaves while r waits and nobody knows of r any more. */
  lemma LeavesWaiter(k: Kinds, R: iset<Config>, honest: bool, at: map<Gid, Pc>, tb: Tables,
                     sent: set<Task>, r: Gid, c: Gid)
    returns (end: Config)
    requires Closed(k, R, honest) && Config(at, tb, sent) in R && c in k && k[c].Handler? && r != c
    requires c in at && at[c] == ConnRead && r in at && at[r] == ReqWait(c) && IdleBut(k, at, c)
    requires TasksOf(tb, k[c].host) == {}
    ensures end in R && r in end.at && c in end.at && end.at[r] == ReqWait(c) && end.at[c] == ConnDone
    ensures end.tb.chans == tb.chans
  {
    assert at == at[c := ConnRead];
    Leaves(k, R, honest, at, tb, sent, c);
    end := Config(at[c := ConnDone], CloseConnection(DropConnection(tb, k[c].host), c), sent);
  }

  /** q cleans up, then the handler of c leaves. */
  lemma CleansUpAndLeaves(k: Kinds, R: iset<Config>, m: map<Gid, Pc>, tb: Tables, sent: set<Task>,
                          r: Gid, q: Gid, c: Gid)
    returns (end: Config)
    requires Closed(k, R, true) && q in k && k[q].Requester? && Config(m[q := UnPending(TimedOut)], tb, sent) in R
    requires c in k && k[c].Handler? && r != c && r != q && c != q
    requires c in m && m[c] == ConnRead && r in m && m[r] == ReqWait(c)
    requires IdleBut(k, m, q) && TasksOf(Cleaned(tb, k[q].task), k[c].host) == {}
    ensures end in R && r in end.at && c in end.at && end.at[r] == ReqWait(c) && end.at[c] == ConnDone
    ensures end.tb.chans == tb.chans
  {
    CleansUp(k, R, m, tb, sent, q);
    end := LeavesWaiter(k, R, true, m[q := ReqDone(TimedOut)], Cleaned(tb, k[q].task), sent, r, c);
  }

  lemma BothSendFacts(k: Kinds, R: iset<Config>, r: Gid, q: Gid, c: Gid, d: Gid) returns (m: map<Gid, Pc>, tb: Tables)
    requires Closed(k, R, true)
    requires r in k && q in k && c in k && d in k && r != q && k[r].Requester? && k[q].Requester?
    requires k[c] == Handler(k[r].host) && k[d] == Handler(k[q].host) && k[r].host != "" && k[q].host != ""
    requires k[r].task == k[q].task && (k[r].host == k[q].host ==> c == d)
    ensures Config(m[q := UnPending(TimedOut)], tb, {k[r].task}) in R && IdleBut(k, m, q)
    ensures c in m && m[c] == ConnRead && r in m && m[r] == ReqWait(c)
    ensures TasksOf(Cleaned(tb, k[r].task), k[r].host) == {} && Lookup(tb.chans, r) == Some(Chan(None, []))
  {
    var t := k[r].task;
    var start := BothSend(k, R, r, q, c, d);
    CleanedTables(start, t, k[q].host, q, k[r].host, r);
    WaitersIdle(k, r, c, d, q);
    m := map[][c := ConnRead][d := ConnRead][r := ReqWait(c)];
    tb := Sent(Sent(start, t, k[q].host, q), t, k[r].host, r);
  }

  lemma SharedIdRun(k: Kinds, R: iset<Config>, r: Gid, q: Gid, c: Gid, d: Gid) returns (end: Config)
    requires Closed(k, R, true)
    requires r in k && q in k && c in k && d in k && r != q && k[r].Requester? && k[q].Requester?
    requires k[c] == Handler(k[r].host) && k[d] == Handler(k[q].host) && k[r].host != "" && k[q].host != ""
    requires k[r].task == k[q].task && (k[r].host == k[q].host ==> c == d)
    ensures end in R && r in end.at && c in end.at && end.at[r] == ReqWait(c) && end.at[c] == ConnDone
    ensures Lookup(end.tb.chans, r) == Some(Chan(None, []))
  {
    var m, tb := BothSendFacts(k, R, r, q, c, d);
    end := CleansUpAndLeaves(k, R, m, tb, {k[r].task}, r, q, c);
  }

  /**
   Whenever two requests share an id and their hosts have handlers, some interleaving, with agents that
   say nothing at all, leaves either of them waiting for good: the other one times out, and its clean-up
   forgets the id.
   */
  lemma SharedIdLosesTheWaiter(k: Kinds, r: Gid, q: Gid, c: Gid)
    requires r in k && q in k && c in k && r != q && k[r].Requester? && k[q].Requester? && k[r].task == k[q].task
    requires k[c] == Handler(k[r].host) && k[r].host != "" && Servable(k, k[q].host)
    ensures exists s :: Reachable(k, s) && Lost(s, r, c)
  {
    var d := c;
    if k[q].host != k[r].host {
      d :| d in k && k[d] == Handler(k[q].host);
    }
    var R := Paths(k, true);
    PathsClosed(k, true);
    var end := SharedIdRun(k, R, r, q, c, d);
    var s := Whole(k, end);
    assert Reachable(k, s) && Lost(s, r, c);
  }

  /**
   A request to a host with a handler is safe in every interleaving if and only if no other request with
   its id goes to a host that has a handler: one to another host is refused by the online check.
   */
  lemma SafeIff(k: Kinds, r: Gid, c: Gid)
    requires r in k && c in k && k[r].Requester? && k[c] == Handler(k[r].host) && k[r].host != ""
    ensures Safe(k, r, c) <==>
            forall q | q in k && q != r && k[q].Requester? && k[q].task == k[r].task :: !Servable(k, k[q].host)
  {
    if q :| q in k && q != r && k[q].Requester? && k[q].task == k[r].task && Servable(k, k[q].host) {
      SharedIdLosesTheWaiter(k, r, q, c);
    } else {
      assert Sole(k, k[r].task);
      forall s | Reachable(k, s) && c in s.pcs && (s.pcs[c].ConnClose? || s.pcs[c].ConnDone?) && WaitsOn(s, r, c)
        ensures Answerable(s, r)
      {
        NoLostWaiter(k, s, c, r);
      }
    }
  }

  /** A request to the empty host, or to one without handlers, is never waiting. */
  lemma UnservedNeverWaits(k: Kinds, s: State, r: Gid, c: Gid)
    requires Reachable(k, s) && r in k && k[r].Requester? && !Servable(k, k[r].host)
    ensures !WaitsOn(s, r, c)
  {
    ReachableInv(k, s);
  }

  // ---- An id answered before it was sent ----

  /** A result is read and looked up: its id is unknown. */
  lemma LooksUp(k: Kinds, R: iset<Config>, at: map<Gid, Pc>, tb: Tables, c: Gid, m: Message)
    requires Closed(k, R, false) && IdleBut(k, at, c) && c in k && k[c].Handler?
    requires Config(at[c := ConnResult(m)], tb, {}) in R && tb.pending == map[] && tb.buffers == map[]
    ensures Config(at[c := Settle(m, Send(None), ToRead)], tb, {}) in R
  {
    Go(k, R, false, at, tb, {}, c, ConnResult(m), Tick, Settle(m, LookUp, ToRead), tb);
    Go(k, R, false, at, tb, {}, c, Settle(m, LookUp, ToRead), Tick, Settle(m, Send(None), ToRead), tb);
  }

  /** The agent of c answers m.taskID, which nobody has registered yet, and the answer is looked up. */
  lemma AnswersEarly(k: Kinds, R: iset<Config>, c: Gid, m: Message)
    requires Closed(k, R, false)
    requires c in k && k[c].Handler? && m.taskID != ""
    ensures Config(map[][c := Settle(m, Send(None), ToRead)], PutConnection(EMPTY, k[c].host, c), {}) in R
  {
    var tb := PutConnection(EMPTY, k[c].host, c);
    Connects(k, R, false, map[], EMPTY, c);
    Go(k, R, false, map[], tb, {}, c, ConnRead, ReadResult(m), ConnResult(m), tb);
    LooksUp(k, R, map[], tb, c, m);
  }

  lemma OffersNobody(k: Kinds, R: iset<Config>, m: map<Gid, Pc>, tb: Tables, sent: set<Task>, c: Gid, msg: Message)
    requires Closed(k, R, false) && IdleBut(k, m, c)
    requires c in k && Config(m[c := Settle(msg, Send(None), ToRead)], tb, sent) in R && k[c].Handler?
    ensures Config(m[c := Settle(msg, ForgetPending, ToRead)], tb, sent) in R
  {
    Go(k, R, false, m, tb, sent, c, Settle(msg, Send(None), ToRead), Tick, Settle(msg, ForgetPending, ToRead), tb);
  }

  lemma ForgetsPending(k: Kinds, R: iset<Config>, m: map<Gid, Pc>, tb: Tables, sent: set<Task>, c: Gid, msg: Message)
    requires Closed(k, R, false) && IdleBut(k, m, c)
    requires c in k && Config(m[c := Settle(msg, Send(None), ToRead)], tb, sent) in R && k[c].Handler?
    ensures Config(m[c := Settle(msg, ForgetBuffer, ToRead)], DropPending(tb, msg.taskID), sent) in R
  {
    OffersNobody(k, R, m, tb, sent, c, msg);
    Go(k, R, false, m, tb, sent, c, Settle(msg, ForgetPending, ToRead), Tick, Settle(msg, ForgetBuffer, ToRead),
       DropPending(tb, msg.taskID));
  }

  lemma ForgetsBuffer(k: Kinds, R: iset<Config>, m: map<Gid, Pc>, tb: Tables, sent: set<Task>, c: Gid, msg: Message)
    requires Closed(k, R, false) && IdleBut(k, m, c)
    requires c in k && Config(m[c := Settle(msg, ForgetBuffer, ToRead)], tb, sent) in R && k[c].Handler?
    ensures Config(m[c := Settle(msg, ForgetHost, ToRead)], DropBuffer(tb, msg.taskID), sent) in R
  {
    Go(k, R, false, m, tb, sent, c, Settle(msg, ForgetBuffer, ToRead), Tick, Settle(msg, ForgetHost, ToRead),
       DropBuffer(tb, msg.taskID));
  }

  lemma ForgetsHost(k: Kinds, R: iset<Config>, m: map<Gid, Pc>, tb: Tables, sent: set<Task>, c: Gid, msg: Message)
    requires Closed(k, R, false) && IdleBut(k, m, c)
    requires c in k && Config(m[c := Settle(msg, ForgetHost, ToRead)], tb, sent) in R && k[c].Handler?
    ensures Config(m[c := ConnRead], DropHost(tb, msg.taskID), sent) in R
  {
    Go(k, R, false, m, tb, sent, c, Settle(msg, ForgetHost, ToRead), Tick, ConnRead, DropHost(tb, msg.taskID));
  }

  /** The rest of the handling of a result that found no channel: it forgets the id. */
  lemma Forgets(k: Kinds, R: iset<Config>, m: map<Gid, Pc>, tb: Tables, sent: set<Task>, c: Gid, msg: Message)
    requires Closed(k, R, false)
    requires c in k && Config(m[c := Settle(msg, Send(None), ToRead)], tb, sent) in R && k[c].Handler?
    requires IdleBut(k, m, c)
    ensures var t := msg.taskID;
            Config(m[c := ConnRead], DropHost(DropBuffer(DropPending(tb, t), t), t), sent) in R
  {
    var t := msg.taskID;
    var one := DropPending(tb, t);
    var two := DropBuffer(one, t);
    ForgetsPending(k, R, m, tb, sent, c, msg);
    ForgetsBuffer(k, R, m, one, sent, c, msg);
    ForgetsHost(k, R, m, two, sent, c, msg);
  }

  lemma SendsMeanwhile(k: Kinds, R: iset<Config>, r: Gid, c: Gid, m: Message)
    requires Closed(k, R, false)
    requires r in k && c in k && k[r].Requester? && k[c] == Handler(k[r].host) && k[r].host != "" && m.taskID != ""
    ensures Config(map[][r := ReqWait(c)][c := Settle(m, Send(None), ToRead)],
                   Sent(PutConnection(EMPTY, k[r].host, c), k[r].task, k[r].host, r), {k[r].task}) in R
  {
    AnswersEarly(k, R, c, m);
    var early := map[][c := Settle(m, Send(None), ToRead)];
    Sends(k, R, false, early, PutConnection(EMPTY, k[r].host, c), {}, r, c);
    assert early[r := ReqWait(c)] == map[][r := ReqWait(c)][c := Settle(m, Send(None), ToRead)];
    assert {} + {k[r].task} == {k[r].task};
  }

  lemma UnsentIdRun(k: Kinds, R: iset<Config>, r: Gid, c: Gid, m: Message) returns (end: Config)
    requires Closed(k, R, false)
    requires r in k && c in k && k[r].Requester? && k[c] == Handler(k[r].host) && k[r].host != ""
    requires m.taskID == k[r].task != ""
    ensures end in R && r in end.at && c in end.at && end.at[r] == ReqWait(c) && end.at[c] == ConnDone
    ensures Lookup(end.tb.chans, r) == Some(Chan(None, []))
  {
    var t, h := k[r].task, k[r].host;
    SendsMeanwhile(k, R, r, c, m);
    var sent, waiting := Sent(PutConnection(EMPTY, h, c), t, h, r), map[][r := ReqWait(c)];
    Forgets(k, R, waiting, sent, {t}, c, m);
    var clean := DropHost(DropBuffer(DropPending(sent, t), t), t);
    Leaves(k, R, false, waiting, clean, {t}, c);
    end := Config(waiting[c := ConnDone], CloseConnection(DropConnection(clean, h), c), {t});
  }

  /**
   Unguessable ids matter: for every request to a host with a handler, an agent that may answer an id
   before it was sent can have the request lost, even when the id is its own.
   */
  lemma UnsentIdLosesTheWaiter(k: Kinds, r: Gid, c: Gid, m: Message)
    requires r in k && c in k && k[r].Requester? && k[c] == Handler(k[r].host) && k[r].host != ""
    requires m.taskID == k[r].task != ""
    ensures exists s :: Path(k, Init(k), s, false) && Lost(s, r, c)
  {
    var R := Paths(k, false);
    PathsClosed(k, false);
    var c1 := UnsentIdRun(k, R, r, c, m);
    var s := Whole(k, c1);
    assert Path(k, Init(k), s, false) && Lost(s, r, c);
  }
}
