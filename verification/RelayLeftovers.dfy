/** What stays in taskHostnames and stdoutBuffers after a request has returned. */
module RelayLeftovers {
  import opened Base
  import opened Relay
  import opened RelayMachine
  import opened RelayLostWaiter

  // ---- A late "stdout" message ----

  /** r sends through c, times out and cleans up. */
  lemma SendsAndGivesUp(k: Kinds, R: iset<Config>, r: Gid, c: Gid) returns (tb: Tables)
    requires Closed(k, R, true)
    requires r in k && c in k && k[r].Requester? && k[c] == Handler(k[r].host) && k[r].host != ""
    ensures Config(map[][c := ConnRead][r := ReqDone(TimedOut)], tb, {k[r].task}) in R
    ensures tb.pending == map[] && tb.hosts == map[]
  {
    var t, h := k[r].task, k[r].host;
    var start := PutConnection(EMPTY, h, c);
    var none: set<Task> := {};
    Connects(k, R, true, map[], EMPTY, c);
    Sends(k, R, true, map[][c := ConnRead], start, none, r, c);
    assert none + {t} == {t};
    TimesOut(k, R, map[][c := ConnRead], Sent(start, t, h, r), {t}, r, c);
    CleansUp(k, R, map[][c := ConnRead], Sent(start, t, h, r), {t}, r);
    tb := Cleaned(Sent(start, t, h, r), t);
  }

  lemma LateStdoutRun(k: Kinds, R: iset<Config>, r: Gid, c: Gid, chunk: string) returns (end: Config)
    requires Closed(k, R, true) && r in k && c in k && k[r].Requester?
    requires k[c] == Handler(k[r].host) && k[r].host != "" && k[r].task != ""
    ensures end in R && r in end.at && end.at[r] == ReqDone(TimedOut)
    ensures k[r].task in end.tb.buffers && k[r].task !in end.tb.pending && k[r].task !in end.tb.hosts
  {
    var t := k[r].task;
    var tb := SendsAndGivesUp(k, R, r, c);
    var at := map[][r := ReqDone(TimedOut)];
    assert at[c := ConnRead] == map[][c := ConnRead][r := ReqDone(TimedOut)];
    Go(k, R, true, at, tb, {t}, c, ConnRead, ReadStdout(t, chunk), ConnRead, AppendStdout(tb, t, chunk));
    end := Config(at[c := ConnRead], AppendStdout(tb, t, chunk), {t});
  }

  /**
   A "stdout" message that comes after its request has given up makes a buffer that no disconnect will
   find, as the id has no host any more.
   */
  lemma LateStdoutStays(k: Kinds, r: Gid, c: Gid, chunk: string)
    requires r in k && c in k && k[r].Requester?
    requires k[c] == Handler(k[r].host) && k[r].host != "" && k[r].task != ""
    ensures exists s :: Reachable(k, s) && r in s.pcs && s.pcs[r].ReqDone?
                        && k[r].task in s.tb.buffers && k[r].task !in s.tb.pending && k[r].task !in s.tb.hosts
  {
    var R := Paths(k, true);
    PathsClosed(k, true);
    var end := LateStdoutRun(k, R, r, c, chunk);
    var s := Whole(k, end);
    assert s.pcs[r] == end.at[r];
    assert Reachable(k, s);
  }

  // ---- A host mapped again by SendToAgent ----

  /** r has found its connection, and its handler starts to unregister. */
  lemma FindsAndDetaches(k: Kinds, R: iset<Config>, r: Gid, c: Gid) returns (tb: Tables)
    requires Closed(k, R, true)
    requires r in k && c in k && k[r].Requester? && k[c] == Handler(k[r].host) && k[r].host != ""
    ensures Config(map[][r := ReqLock(c)][c := Collect(c)], tb, {}) in R
    ensures tb.hosts == map[k[r].task := k[r].host] && tb.pending == map[k[r].task := r]
    ensures tb.chans == map[r := Chan(None, [])] && tb.closed == {}
  {
    var t, h := k[r].task, k[r].host;
    var start := PutConnection(EMPTY, h, c);
    var m := map[][c := ConnRead];
    Connects(k, R, true, map[], EMPTY, c);
    Registers(k, R, true, m, start, {}, r);
    Finds(k, R, true, m, PutFuture(start, t, r), {}, r, c);
    var found := PutHost(PutFuture(start, t, r), t, h);
    assert m[r := ReqLock(c)] == map[][r := ReqLock(c)][c := ConnRead];
    Detaches(k, R, true, map[][r := ReqLock(c)], found, {}, c);
    tb := DropConnection(found, h);
  }

  lemma PicksTask(k: Kinds, R: iset<Config>, m: map<Gid, Pc>, tb: Tables, c: Gid, t: Task)
    requires Closed(k, R, true) && IdleBut(k, m, c) && c in k && k[c].Handler?
    requires Config(m[c := Collect(c)], tb, {}) in R && TasksOf(tb, k[c].host) == {t}
    ensures Config(m[c := Settle(ErrorMessage(t, "agent_disconnected"), LookUp, ToResolve(c, {}))], tb, {}) in R
  {
    Go(k, R, true, m, tb, {}, c, Collect(c), Tick, Resolve(c, {t}), tb);
    assert {t} - {t} == {};
    Go(k, R, true, m, tb, {}, c, Resolve(c, {t}), Pick(t),
       Settle(ErrorMessage(t, "agent_disconnected"), LookUp, ToResolve(c, {})), tb);
  }

  lemma LooksUpWaiter(k: Kinds, R: iset<Config>, m: map<Gid, Pc>, tb: Tables, c: Gid, msg: Message, r: Gid)
    requires Closed(k, R, true) && IdleBut(k, m, c) && c in k && k[c].Handler?
    requires Config(m[c := Settle(msg, LookUp, ToResolve(c, {}))], tb, {}) in R
    requires Lookup(tb.pending, msg.taskID) == Some(r)
    ensures Config(m[c := Settle(msg, Send(Some(r)), ToResolve(c, {}))], tb, {}) in R
  {
    Go(k, R, true, m, tb, {}, c, Settle(msg, LookUp, ToResolve(c, {})), Tick,
       Settle(msg, Send(Some(r)), ToResolve(c, {})), tb);
  }

  lemma OffersError(k: Kinds, R: iset<Config>, m: map<Gid, Pc>, tb: Tables, c: Gid, msg: Message, r: Gid)
    requires Closed(k, R, true) && IdleBut(k, m, c) && c in k && k[c].Handler?
    requires Config(m[c := Settle(msg, LookUp, ToResolve(c, {}))], tb, {}) in R
    requires Lookup(tb.pending, msg.taskID) == Some(r)
    ensures Config(m[c := Settle(msg, ForgetPending, ToResolve(c, {}))], Offer(tb, Some(r), msg), {}) in R
  {
    LooksUpWaiter(k, R, m, tb, c, msg, r);
    Go(k, R, true, m, tb, {}, c, Settle(msg, Send(Some(r)), ToResolve(c, {})), Tick,
       Settle(msg, ForgetPending, ToResolve(c, {})), Offer(tb, Some(r), msg));
  }

  lemma ForgetsOne(k: Kinds, R: iset<Config>, m: map<Gid, Pc>, tb: Tables, c: Gid, msg: Message)
    requires Closed(k, R, true) && IdleBut(k, m, c) && c in k && k[c].Handler?
    requires Config(m[c := Settle(msg, ForgetPending, ToResolve(c, {}))], tb, {}) in R
    ensures Config(m[c := Settle(msg, ForgetBuffer, ToResolve(c, {}))], DropPending(tb, msg.taskID), {}) in R
  {
    Go(k, R, true, m, tb, {}, c, Settle(msg, ForgetPending, ToResolve(c, {})), Tick,
       Settle(msg, ForgetBuffer, ToResolve(c, {})), DropPending(tb, msg.taskID));
  }

  lemma ForgetsTwo(k: Kinds, R: iset<Config>, m: map<Gid, Pc>, tb: Tables, c: Gid, msg: Message)
    requires Closed(k, R, true) && IdleBut(k, m, c) && c in k && k[c].Handler?
    requires Config(m[c := Settle(msg, ForgetPending, ToResolve(c, {}))], tb, {}) in R
    ensures Config(m[c := Settle(msg, ForgetHost, ToResolve(c, {}))],
                   DropBuffer(DropPending(tb, msg.taskID), msg.taskID), {})
            in R
  {
    var one := DropPending(tb, msg.taskID);
    ForgetsOne(k, R, m, tb, c, msg);
    Go(k, R, true, m, one, {}, c, Settle(msg, ForgetBuffer, ToResolve(c, {})), Tick,
       Settle(msg, ForgetHost, ToResolve(c, {})), DropBuffer(one, msg.taskID));
  }

  lemma ForgetsThree(k: Kinds, R: iset<Config>, m: map<Gid, Pc>, tb: Tables, c: Gid, msg: Message)
    requires Closed(k, R, true) && IdleBut(k, m, c) && c in k && k[c].Handler?
    requires Config(m[c := Settle(msg, ForgetHost, ToResolve(c, {}))], tb, {}) in R
    ensures Config(m[c := Resolve(c, {})], DropHost(tb, msg.taskID), {}) in R
  {
    Go(k, R, true, m, tb, {}, c, Settle(msg, ForgetHost, ToResolve(c, {})), Tick, Resolve(c, {}),
       DropHost(tb, msg.taskID));
  }

  lemma ForgetsLast(k: Kinds, R: iset<Config>, m: map<Gid, Pc>, tb: Tables, c: Gid, msg: Message)
    requires Closed(k, R, true) && IdleBut(k, m, c) && c in k && k[c].Handler?
    requires Config(m[c := Settle(msg, ForgetHost, ToResolve(c, {}))], tb, {}) in R
    ensures Config(m[c := ConnClose], DropHost(tb, msg.taskID), {}) in R
  {
    ForgetsThree(k, R, m, tb, c, msg);
    Go(k, R, true, m, DropHost(tb, msg.taskID), {}, c, Resolve(c, {}), Tick, ConnClose, DropHost(tb, msg.taskID));
  }

  /** The handler answers r and forgets its task; the connection is not closed yet. */
  lemma AnswersAndForgets(k: Kinds, R: iset<Config>, m: map<Gid, Pc>, tb: Tables, r: Gid, c: Gid, t: Task)
    returns (tb': Tables)
    requires Closed(k, R, true) && IdleBut(k, m, c) && c in k && k[c].Handler?
    requires Config(m[c := Collect(c)], tb, {}) in R
    requires tb.hosts == map[t := k[c].host] && tb.pending == map[t := r] && tb.chans == map[r := Chan(None, [])]
    ensures Config(m[c := ConnClose], tb', {}) in R
    ensures var msg := ErrorMessage(t, "agent_disconnected"); Lookup(tb'.chans, r) == Some(Chan(Some(msg), [msg]))
    ensures tb'.hosts == map[] && tb'.pending == map[] && tb'.closed == tb.closed
  {
    var msg := ErrorMessage(t, "agent_disconnected");
    var empty: seq<Message> := [];
    assert empty + [msg] == [msg];
    assert TasksOf(tb, k[c].host) == {t};
    PicksTask(k, R, m, tb, c, t);
    OffersError(k, R, m, tb, c, msg, r);
    ForgetsTwo(k, R, m, Offer(tb, Some(r), msg), c, msg);
    var two := DropBuffer(DropPending(Offer(tb, Some(r), msg), t), t);
    ForgetsLast(k, R, m, two, c, msg);
    tb' := DropHost(two, t);
  }

  /** r, which still holds the connection, maps its host again, writes, and takes the answer that is there. */
  lemma SendsTooLate(k: Kinds, R: iset<Config>, m: map<Gid, Pc>, tb: Tables, r: Gid, c: Gid, msg: Message)
    requires Closed(k, R, true) && IdleBut(k, m, r) && r in k && k[r].Requester?
    requires Config(m[r := ReqLock(c)], tb, {}) in R && c !in tb.closed
    requires Lookup(tb.chans, r) == Some(Chan(Some(msg), [msg]))
    ensures Config(m[r := ReqDone(Answer(msg))], Take(PutHost(tb, k[r].task, k[r].host), r), {k[r].task}) in R
  {
    var none: set<Task> := {};
    WritesTask(k, R, true, m, tb, none, r, c);
    assert none + {k[r].task} == {k[r].task};
    var mapped := PutHost(tb, k[r].task, k[r].host);
    Go(k, R, true, m, mapped, {k[r].task}, r, ReqWait(c), Receive, ReqDone(Answer(msg)), Take(mapped, r));
  }

  /** The handler has done all but closing the connection, and r has just found it. */
  lemma AnsweredMeanwhile(k: Kinds, R: iset<Config>, r: Gid, c: Gid) returns (tb: Tables)
    requires Closed(k, R, true)
    requires r in k && c in k && k[r].Requester? && k[c] == Handler(k[r].host) && k[r].host != ""
    ensures Config(map[][c := ConnClose][r := ReqLock(c)], tb, {}) in R
    ensures var msg := ErrorMessage(k[r].task, "agent_disconnected");
            Lookup(tb.chans, r) == Some(Chan(Some(msg), [msg]))
    ensures tb.hosts == map[] && tb.pending == map[] && tb.closed == {}
  {
    var before := FindsAndDetaches(k, R, r, c);
    tb := AnswersAndForgets(k, R, map[][r := ReqLock(c)], before, r, c, k[r].task);
    assert map[][r := ReqLock(c)][c := ConnClose] == map[][c := ConnClose][r := ReqLock(c)];
  }

  lemma HostStaysRun(k: Kinds, R: iset<Config>, r: Gid, c: Gid) returns (end: Config)
    requires Closed(k, R, true)
    requires r in k && c in k && k[r].Requester? && k[c] == Handler(k[r].host) && k[r].host != ""
    ensures end in R && r in end.at && c in end.at && end.at[r].ReqDone? && end.at[c] == ConnDone
    ensures end.tb.hosts == map[k[r].task := k[r].host] && end.tb.pending == map[]
  {
    var t, msg := k[r].task, ErrorMessage(k[r].task, "agent_disconnected");
    var tb := AnsweredMeanwhile(k, R, r, c);
    SendsTooLate(k, R, map[][c := ConnClose], tb, r, c, msg);
    var late := Take(PutHost(tb, t, k[r].host), r);
    var at := map[][r := ReqDone(Answer(msg))];
    assert map[][c := ConnClose][r := ReqDone(Answer(msg))] == at[c := ConnClose];
    ClosesLast(k, R, true, at, late, {t}, c);
    end := Config(at[c := ConnDone], CloseConnection(late, c), {t});
  }

  /**
   SendToAgent maps the id to its host again. A disconnect between its GetConnection and that leaves the
   mapping when the request has returned and the handler is done.
   */
  lemma HostStays(k: Kinds, r: Gid, c: Gid)
    requires r in k && c in k && k[r].Requester? && k[c] == Handler(k[r].host) && k[r].host != ""
    ensures exists s :: Reachable(k, s) && r in s.pcs && c in s.pcs && s.pcs[r].ReqDone? && s.pcs[c] == ConnDone
                        && k[r].task in s.tb.hosts && k[r].task !in s.tb.pending
  {
    var R := Paths(k, true);
    PathsClosed(k, true);
    var end := HostStaysRun(k, R, r, c);
    var s := Whole(k, end);
    assert s.pcs[r] == end.at[r] && s.pcs[c] == end.at[c];
    assert Reachable(k, s);
  }
}
