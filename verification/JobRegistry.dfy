/**
 The agent's registry of async jobs (registry/registry.go): a map in memory, written through to a
 JSON file by way of a temporary file and a rename.

 The JSON encoding is any pair of functions that round-trips; the disk holds bytes, and a crash may
 leave any prefix of a write.
 */
module JobRegistry {
  import opened Base

  datatype Job = Job(
    jid: string, pid: int, cmd: string, timeout: int, stdoutPath: string, startedAt: int,
    finished: bool, rc: int)

  /** Times are nanoseconds, timeouts seconds. */
  const SECOND: int := 1_000_000_000

  type Jobs = map<string, Job>
  type Bytes = seq<int>

  datatype Codec = Codec(encode: Jobs -> Bytes, decode: Bytes -> Option<Jobs>)

  ghost predicate RoundTrips(c: Codec)
  {
    forall m :: c.decode(c.encode(m)) == Some(m)
  }

  /** jobsFile, and the temporary file of the save in progress. */
  datatype Disk = Disk(file: Option<Bytes>, tmp: Option<Bytes>)

  /** Where a save goes wrong, if it does. */
  datatype Fault = NoFault | OpenFails | WriteFails(written: nat) | CloseFails | RenameFails

  // ---- save ----

  /** The disk while the temporary file grows to its first n bytes. */
  function Writing(d: Disk, data: Bytes, n: nat): seq<Disk>
    requires n <= |data|
  {
    (if n == 0 then [] else Writing(d, data, n - 1)) + [d.(tmp := Some(data[..n]))]
  }

  /** Every state the disk goes through in one save, the first being the one it started from. */
  function SaveStates(d: Disk, data: Bytes, fault: Fault): seq<Disk>
  {
    match fault
    case OpenFails => [d]
    case WriteFails(written) => [d] + Writing(d, data, Min(written, |data|)) + [d.(tmp := None)]
    case CloseFails => [d] + Writing(d, data, |data|) + [d.(tmp := None)]
    case RenameFails => [d] + Writing(d, data, |data|)
    case NoFault => [d] + Writing(d, data, |data|) + [Disk(Some(data), None)]
  }

  function Last(s: seq<Disk>): Disk
    requires s != []
  {
    s[|s| - 1]
  }

  lemma {:induction false} WritingKeepsFile(d: Disk, data: Bytes, n: nat)
    requires n <= |data|
    ensures forall x | x in Writing(d, data, n) :: x.file == d.file
  {
    if n > 0 {
      WritingKeepsFile(d, data, n - 1);
    }
  }

  /** At every moment of a save the jobs file is the old one or the complete new one. */
  lemma SaveIsAtomic(d: Disk, data: Bytes, fault: Fault)
    ensures var states := SaveStates(d, data, fault);
            && (forall x | x in states :: x.file == d.file || x.file == Some(data))
            && Last(states).file == (if fault == NoFault then Some(data) else d.file)
  {
    WritingKeepsFile(d, data, |data|);
    WritingKeepsFile(d, data, if fault.WriteFails? then Min(fault.written, |data|) else 0);
  }

  // ---- Operations ----

  datatype Op =
    | Register(job: Job)   // a fresh job: not finished, rc 0
    | Update(jid: string, finished: bool, rc: int)
    | Remove(jid: string)
    | Restore(alive: int -> bool)
    | KillExpired(now: int)

  function Restored(j: Job, alive: int -> bool): Job
  {
    if j.finished || alive(j.pid) then j else j.(finished := true, rc := -1)
  }

  predicate Expired(j: Job, now: int)
  {
    !j.finished && now > j.startedAt + j.timeout * SECOND
  }

  function Killed(j: Job, now: int): Job
  {
    if Expired(j, now) then j.(finished := true, rc := -15) else j
  }

  /** Memory after the operation. */
  function Mem(jobs: Jobs, op: Op): Jobs
  {
    match op
    case Register(job) => jobs[job.jid := job.(finished := false, rc := 0)]
    case Update(jid, finished, rc) =>
      if jid in jobs then jobs[jid := jobs[jid].(finished := finished, rc := rc)] else jobs
    case Remove(jid) => jobs - {jid}
    case Restore(alive) => map j | j in jobs :: Restored(jobs[j], alive)
    case KillExpired(now) => map j | j in jobs :: Killed(jobs[j], now)
  }

  /** Whether the operation gets as far as saving. */
  predicate Saves(jobs: Jobs, op: Op)
  {
    match op
    case Register(_) => true
    case Update(jid, _, _) => jid in jobs
    case Remove(_) => true
    case Restore(alive) => exists j | j in jobs :: !jobs[j].finished && !alive(jobs[j].pid)
    case KillExpired(now) => exists j | j in jobs :: Expired(jobs[j], now)
  }

  lemma UnsavedOpsChangeNothing(jobs: Jobs, op: Op)
    ensures !Saves(jobs, op) ==> Mem(jobs, op) == jobs
  {
    if !Saves(jobs, op) {
      match op
      case Restore(alive) => assert Mem(jobs, op) == map j | j in jobs :: jobs[j];
      case KillExpired(now) => assert Mem(jobs, op) == map j | j in jobs :: jobs[j];
      case _ =>
    }
  }

  // ---- Runs and crashes ----

  datatype State = State(jobs: Jobs, disk: Disk)

  datatype Call = Call(op: Op, fault: Fault)

  /** The disk states one call goes through, and the state it ends in. */
  function DiskStates(c: Codec, s: State, call: Call): seq<Disk>
    ensures DiskStates(c, s, call) != []
  {
    if Saves(s.jobs, call.op) then SaveStates(s.disk, c.encode(Mem(s.jobs, call.op)), call.fault) else [s.disk]
  }

  function Do(c: Codec, s: State, call: Call): State
  {
    State(Mem(s.jobs, call.op), Last(DiskStates(c, s, call)))
  }

  function Run(c: Codec, s: State, calls: seq<Call>): State
    decreases |calls|
  {
    if calls == [] then s else Do(c, Run(c, s, calls[..|calls| - 1]), calls[|calls| - 1])
  }

  /** What New reads: an absent file is an empty registry. */
  function Loaded(c: Codec, d: Disk): Option<Jobs>
  {
    match d.file
    case None => Some(map[])
    case Some(bytes) => c.decode(bytes)
  }

  /** One call, with a crash at any moment of it: New reads the jobs before the call or those after it. */
  lemma CrashDuringCall(c: Codec, s: State, call: Call, d: Disk)
    requires RoundTrips(c) && d in DiskStates(c, s, call)
    ensures Loaded(c, d) == Loaded(c, s.disk) || Loaded(c, d) == Some(Mem(s.jobs, call.op))
    ensures Loaded(c, Do(c, s, call).disk) ==
            (if Saves(s.jobs, call.op) && call.fault == NoFault then Some(Mem(s.jobs, call.op)) else Loaded(c, s.disk))
  {
    SaveIsAtomic(s.disk, c.encode(Mem(s.jobs, call.op)), call.fault);
  }

  /** What memory held after the first n calls. */
  function MemAfter(c: Codec, s: State, calls: seq<Call>, n: nat): Jobs
    requires n <= |calls|
  {
    Run(c, s, calls[..n]).jobs
  }

  /** The file always decodes, to what memory held at the start or after one of the calls. */
  lemma {:induction false} FileIsSomePastMemory(c: Codec, s: State, calls: seq<Call>)
    requires RoundTrips(c) && Loaded(c, s.disk) == Some(s.jobs)
    ensures exists n :: 0 <= n <= |calls| && Loaded(c, Run(c, s, calls).disk) == Some(MemAfter(c, s, calls, n))
    decreases |calls|
  {
    if calls == [] {
      assert Loaded(c, Run(c, s, calls).disk) == Some(MemAfter(c, s, calls, 0));
    } else {
      var front, last := calls[..|calls| - 1], calls[|calls| - 1];
      FileIsSomePastMemory(c, s, front);
      var n :| 0 <= n <= |front| && Loaded(c, Run(c, s, front).disk) == Some(MemAfter(c, s, front, n));
      assert calls[..n] == front[..n];
      assert calls[..|calls|] == calls;
      var mid := Run(c, s, front);
      CrashDuringCall(c, mid, last, Last(DiskStates(c, mid, last)));
      if Loaded(c, Run(c, s, calls).disk) == Loaded(c, mid.disk) {
        assert Loaded(c, Run(c, s, calls).disk) == Some(MemAfter(c, s, calls, n));
      } else {
        assert Loaded(c, Run(c, s, calls).disk) == Some(MemAfter(c, s, calls, |calls|));
      }
    }
  }

  /**
   A crash at any moment of the last of any sequence of calls, saves failing or not: New succeeds and
   reads what memory held after that call, after an earlier one, or at the start; never a mixture.
   */
  lemma CrashSafety(c: Codec, s: State, calls: seq<Call>, d: Disk)
    requires RoundTrips(c) && Loaded(c, s.disk) == Some(s.jobs) && calls != []
    requires d in DiskStates(c, Run(c, s, calls[..|calls| - 1]), calls[|calls| - 1])
    ensures exists n :: 0 <= n <= |calls| && Loaded(c, d) == Some(MemAfter(c, s, calls, n))
  {
    var front, last := calls[..|calls| - 1], calls[|calls| - 1];
    var mid := Run(c, s, front);
    FileIsSomePastMemory(c, s, front);
    var n :| 0 <= n <= |front| && Loaded(c, mid.disk) == Some(MemAfter(c, s, front, n));
    assert calls[..n] == front[..n];
    assert calls[..|calls|] == calls;
    CrashDuringCall(c, mid, last, d);
    if Loaded(c, d) == Loaded(c, mid.disk) {
      assert Loaded(c, d) == Some(MemAfter(c, s, calls, n));
    } else {
      assert Loaded(c, d) == Some(MemAfter(c, s, calls, |calls|));
    }
  }

  /** Disk and memory agree after a call, if they did before, exactly when nothing that changed was lost. */
  lemma InStepIff(c: Codec, s: State, call: Call)
    requires RoundTrips(c) && Loaded(c, s.disk) == Some(s.jobs)
    ensures Loaded(c, Do(c, s, call).disk) == Some(Do(c, s, call).jobs)
            <==> call.fault == NoFault || Mem(s.jobs, call.op) == s.jobs
  {
    CrashDuringCall(c, s, call, s.disk) by {
      assert s.disk == DiskStates(c, s, call)[0];
    }
    UnsavedOpsChangeNothing(s.jobs, call.op);
  }

  /** If every save succeeds, disk equals memory after every call. */
  lemma {:induction false} DiskEqualsMemory(c: Codec, s: State, calls: seq<Call>)
    requires RoundTrips(c) && Loaded(c, s.disk) == Some(s.jobs)
    requires forall call | call in calls :: call.fault == NoFault
    ensures Loaded(c, Run(c, s, calls).disk) == Some(Run(c, s, calls).jobs)
    decreases |calls|
  {
    if calls != [] {
      DiskEqualsMemory(c, s, calls[..|calls| - 1]);
      InStepIff(c, Run(c, s, calls[..|calls| - 1]), calls[|calls| - 1]);
    }
  }

  /**
   After a crash at any moment, New and RestoreOnRestart: every job is finished or its process is
   alive, jobs already finished keep their rc, and no job is lost or invented.
   */
  lemma RestartRestores(c: Codec, s: State, call: Call, d: Disk, alive: int -> bool)
    requires RoundTrips(c) && Loaded(c, s.disk).Some? && d in DiskStates(c, s, call)
    ensures Loaded(c, d).Some?
    ensures var before := Loaded(c, d).value;
            var after := Mem(before, Restore(alive));
            && after.Keys == before.Keys
            && (forall j | j in after ::
                  && (after[j].finished || alive(after[j].pid))
                  && (before[j].finished || alive(before[j].pid) ==> after[j] == before[j])
                  && (!before[j].finished && !alive(before[j].pid) ==>
                        after[j] == before[j].(finished := true, rc := -1)))
            && Mem(after, Restore(alive)) == after
  {
    CrashDuringCall(c, s, call, d);
  }

  // ---- The registry object ----

  class Registry {
    var jobs: Jobs
    var disk: Disk
    const codec: Codec

    function Now(): State
      reads this
    {
      State(jobs, disk)
    }

    constructor (codec: Codec, disk: Disk, jobs: Jobs)
      ensures this.codec == codec && this.disk == disk && this.jobs == jobs
    {
      this.codec, this.disk, this.jobs := codec, disk, jobs;
    }

    /** New: an absent file is an empty registry, an undecodable one is an error and gives no registry. */
    static method Open(codec: Codec, disk: Disk) returns (r: Option<Registry>)
      ensures r.Some? <==> disk.file.None? || codec.decode(disk.file.value).Some?
      ensures r.Some? ==> fresh(r.value) && r.value.codec == codec && r.value.disk == disk
      ensures r.Some? ==> Some(r.value.jobs) == Loaded(codec, disk)
    {
      if disk.file.None? {
        var empty := new Registry(codec, disk, map[]);
        return Some(empty);
      }
      var decoded := codec.decode(disk.file.value);
      if decoded.None? {
        return None;
      }
      var loaded := new Registry(codec, disk, decoded.value);
      return Some(loaded);
    }

    method Save(fault: Fault) returns (ok: bool)
      modifies this`disk
      ensures ok <==> fault == NoFault
      ensures disk == Last(SaveStates(old(disk), codec.encode(jobs), fault))
      ensures disk.file == if ok then Some(codec.encode(jobs)) else old(disk).file
      ensures disk.tmp == match fault
                          case OpenFails => old(disk).tmp
                          case RenameFails => Some(codec.encode(jobs))
                          case _ => None
    {
      var data := codec.encode(jobs);
      if fault == OpenFails {
        return false;
      }
      ghost var start := disk;
      disk := disk.(tmp := Some([]));
      var n := 0;
      while n < |data| && !(fault.WriteFails? && n >= fault.written)
        invariant 0 <= n <= |data| && (fault.WriteFails? ==> n <= fault.written)
        invariant disk == start.(tmp := Some(data[..n])) == Last(Writing(start, data, n))
      {
        n := n + 1;
        disk := disk.(tmp := Some(data[..n]));
      }
      assert data[..|data|] == data;
      if fault.WriteFails? || fault == CloseFails {
        disk := disk.(tmp := None);
        return false;
      }
      if fault == RenameFails {
        return false;
      }
      disk := Disk(disk.tmp, None);
      return true;
    }

    method RegisterJob(job: Job, fault: Fault) returns (ok: bool)
      modifies this
      ensures Now() == Do(codec, old(Now()), Call(Register(job), fault)) && (ok <==> fault == NoFault)
      ensures jobs == old(jobs)[job.jid := Job(job.jid, job.pid, job.cmd, job.timeout, job.stdoutPath,
                                               job.startedAt, false, 0)]
      ensures disk.file == if ok then Some(codec.encode(jobs)) else old(disk).file
    {
      jobs := jobs[job.jid := job.(finished := false, rc := 0)];
      ok := Save(fault);
    }

    method UpdateJob(jid: string, finished: bool, rc: int, fault: Fault) returns (ok: bool)
      modifies this
      ensures Now() == Do(codec, old(Now()), Call(Update(jid, finished, rc), fault))
      ensures ok <==> jid in old(jobs) && fault == NoFault
      ensures jobs - {jid} == old(jobs) - {jid} && (jid in jobs <==> jid in old(jobs))
      ensures jid in jobs ==> jobs[jid] == old(jobs)[jid].(finished := finished, rc := rc)
      ensures disk.file == if ok then Some(codec.encode(jobs)) else old(disk).file
    {
      if jid !in jobs {
        return false;
      }
      jobs := jobs[jid := jobs[jid].(finished := finished, rc := rc)];
      ok := Save(fault);
    }

    method RemoveJob(jid: string, fault: Fault) returns (ok: bool)
      modifies this
      ensures Now() == Do(codec, old(Now()), Call(Remove(jid), fault)) && (ok <==> fault == NoFault)
      ensures jobs == old(jobs) - {jid}
      ensures disk.file == if ok then Some(codec.encode(jobs)) else old(disk).file
    {
      jobs := jobs - {jid};
      ok := Save(fault);
    }

    method RestoreOnRestart(alive: int -> bool, fault: Fault) returns (ok: bool)
      modifies this
      ensures Now() == Do(codec, old(Now()), Call(Restore(alive), fault))
      ensures jobs.Keys == old(jobs).Keys
      ensures forall j | j in jobs :: var was := old(jobs)[j];
                                      jobs[j] == if was.finished || alive(was.pid) then was
                                                 else was.(finished := true, rc := -1)
      ensures disk.file == if ok && jobs != old(jobs) then Some(codec.encode(jobs)) else old(disk).file
    {
      var todo, modified := jobs.Keys, false;
      while todo != {}
        invariant todo <= jobs.Keys == old(jobs).Keys && disk == old(disk)
        invariant forall j | j in jobs :: jobs[j] == if j in todo then old(jobs)[j] else Restored(old(jobs)[j], alive)
        invariant modified <==>
                  exists j | j in old(jobs) && j !in todo :: !old(jobs)[j].finished && !alive(old(jobs)[j].pid)
      {
        var j :| j in todo;
        todo := todo - {j};
        if !jobs[j].finished && !alive(jobs[j].pid) {
          jobs := jobs[j := jobs[j].(finished := true, rc := -1)];
          modified := true;
        }
      }
      assert jobs == Mem(old(jobs), Restore(alive));
      ok := true;
      if modified {
        ok := Save(fault);
      }
    }

    /** Also returns the processes it sent SIGTERM. */
    method CheckAndKillExpired(now: int, fault: Fault) returns (ok: bool, signalled: set<int>)
      modifies this
      ensures Now() == Do(codec, old(Now()), Call(KillExpired(now), fault))
      ensures jobs.Keys == old(jobs).Keys
      ensures forall j | j in jobs ::
                var was := old(jobs)[j];
                jobs[j] == if !was.finished && now > was.startedAt + was.timeout * SECOND
                           then was.(finished := true, rc := -15) else was
      ensures forall pid :: pid in signalled <==>
                exists j :: j in old(jobs) && !old(jobs)[j].finished && old(jobs)[j].pid == pid
                            && now > old(jobs)[j].startedAt + old(jobs)[j].timeout * SECOND
      ensures disk.file == if ok && jobs != old(jobs) then Some(codec.encode(jobs)) else old(disk).file
    {
      var todo, modified := jobs.Keys, false;
      signalled := {};
      while todo != {}
        invariant todo <= jobs.Keys == old(jobs).Keys && disk == old(disk)
        invariant forall j | j in jobs :: jobs[j] == if j in todo then old(jobs)[j] else Killed(old(jobs)[j], now)
        invariant modified <==> exists j | j in old(jobs) && j !in todo :: Expired(old(jobs)[j], now)
        invariant signalled == set j | j in old(jobs) && j !in todo && Expired(old(jobs)[j], now) :: old(jobs)[j].pid
      {
        var j :| j in todo;
        todo := todo - {j};
        if Expired(jobs[j], now) {
          signalled := signalled + {jobs[j].pid};
          jobs := jobs[j := jobs[j].(finished := true, rc := -15)];
          modified := true;
        }
      }
      assert jobs == Mem(old(jobs), KillExpired(now));
      ok := true;
      if modified {
        ok := Save(fault);
      }
    }
  }
}
