/** Bounded capture of a command's output (executor/executor.go). */
module Capture {
  import opened Base

  type byte = b: int | 0 <= b < 256

  const STDOUT_BUFFER_MAX: nat := 5 * 1024 * 1024
  /** Where the buffers stop: beyond the cap, so that Run can tell that the cap was passed. */
  const HELD_MAX: nat := STDOUT_BUFFER_MAX + 1024

  /** The first n bytes of s, or all of them. */
  function First(s: seq<byte>, n: nat): seq<byte>
  {
    if |s| <= n then s else s[..n]
  }

  /** Cutting as the writes come is cutting the whole. */
  lemma FirstExtends(s: seq<byte>, p: seq<byte>, n: nat)
    ensures |s| < n ==> First(s + p, n) == First(s, n) + First(p, n - |s|)
    ensures |s| >= n ==> First(s + p, n) == First(s, n)
  {
    if n <= |s| {
      assert (s + p)[..n] == s[..n];
    } else if n < |s + p| {
      assert (s + p)[..n] == s + p[..n - |s|];
    }
  }

  /** limitedBuffer. */
  class LimitedBuffer {
    var data: seq<byte>
    /** Every byte handed to Write so far, and whether a Write has returned a short count. */
    ghost var written: seq<byte>
    ghost var short: bool

    ghost predicate Valid()
      reads this
    {
      data == First(written, HELD_MAX) && (short ==> |written| > HELD_MAX)
    }

    constructor ()
      ensures Valid() && written == [] && !short
    {
      data := [];
      written, short := [], false;
    }

    /**
     The buffer holds the first HELD_MAX bytes of all that was written. The count is that of the slice
     kept, so it is short on the one write that crosses the limit, and full again afterwards.
     */
    method Write(p: seq<byte>) returns (n: nat)
      requires Valid()
      modifies this
      ensures Valid() && written == old(written) + p
      ensures n < |p| <==> |old(written)| < HELD_MAX < |old(written)| + |p|
      ensures n < |p| ==> |old(written)| + n == HELD_MAX
      ensures n <= |p| && short == (old(short) || n < |p|)
    {
      FirstExtends(written, p, HELD_MAX);
      var q := p;
      var remaining := HELD_MAX - |data|;
      if remaining > 0 {
        if |q| > remaining {
          q := q[..remaining];
        }
        data := data + q;
      }
      written := written + p;
      n := |q|;
      short := short || n < |p|;
    }
  }

  /** bytesReader: stdin for the command. */
  class BytesReader {
    const data: seq<byte>
    var pos: nat
    /** Whether Read has returned its error at the end, which is not io.EOF. */
    ghost var ended: bool

    ghost predicate Valid()
      reads this
    {
      pos <= |data|
    }

    constructor (bytes: seq<byte>)
      ensures Valid() && data == bytes && pos == 0 && !ended
    {
      data := bytes;
      pos, ended := 0, false;
    }

    /** The next bytes in order, none skipped or repeated; the end is reported once nothing is left. */
    method Read(p: array<byte>) returns (n: nat, end: bool)
      requires Valid()
      modifies this`pos, this`ended, p
      ensures Valid() && end == (old(pos) == |data|) && ended == (old(ended) || end)
      ensures n == if end then 0 else Min(p.Length, |data| - old(pos))
      ensures pos == old(pos) + n
      ensures p[..n] == data[old(pos)..pos] && p[n..] == old(p[..])[n..]
    {
      if pos >= |data| {
        ended := true;
        return 0, true;
      }
      n := Min(p.Length, |data| - pos);
      end := false;
      forall i | 0 <= i < n {
        p[i] := data[pos + i];
      }
      pos := pos + n;
    }
  }

  /**
   What came of the subprocess; the conditions are read after Wait. Wait fails when the exit code is not 0
   or, with an error that is no ExitError, when copying to or from the command failed.
   */
  datatype Process =
    | NotStarted(reason: string)
    | Ended(exitCode: int, copyFailed: bool, deadlinePassed: bool, cancelled: bool)

  /** Wait returns an error. */
  predicate Failed(p: Process)
    requires p.Ended?
  {
    p.exitCode != 0 || p.copyFailed
  }

  /** A copy stops at a short count and at any error but io.EOF; Wait then reports it. */
  ghost predicate CopiesFit(p: Process, stdin: Option<BytesReader>, stdoutBuf: LimitedBuffer, stderrBuf: LimitedBuffer)
    reads stdoutBuf, stderrBuf, match stdin case None => {} case Some(b) => {b}
  {
    p.Ended? && (stdoutBuf.short || stderrBuf.short || (stdin.Some? && stdin.value.ended)) ==> p.copyFailed
  }

  datatype ExecResult = ExecResult(rc: int, stdout: seq<byte>, stderr: seq<byte>, message: string, truncated: bool)

  method Run(expiresAt: int, now: int, process: Process, stdin: Option<BytesReader>,
             stdoutBuf: LimitedBuffer, stderrBuf: LimitedBuffer) returns (r: ExecResult)
    requires stdoutBuf.Valid() && stderrBuf.Valid() && CopiesFit(process, stdin, stdoutBuf, stderrBuf)
    ensures expiresAt > 0 && now > expiresAt ==> r == ExecResult(-1, [], [], "task expired", false)
    ensures !(expiresAt > 0 && now > expiresAt) && process.NotStarted? ==>
              r == ExecResult(1, [], [], "failed to start command: " + process.reason, false)
    ensures !(expiresAt > 0 && now > expiresAt) && process.Ended? ==>
              && r.stdout == First(stdoutBuf.written, STDOUT_BUFFER_MAX)
              && r.stderr == First(stderrBuf.written, HELD_MAX)
              && (r.truncated <==>
                    |stdoutBuf.written| > STDOUT_BUFFER_MAX || (Failed(process) && process.deadlinePassed))
              && (r.rc == 0 <==> !Failed(process))
              && (Failed(process) && (process.deadlinePassed || process.cancelled) ==> r.rc == -15)
              && (Failed(process) && !process.deadlinePassed && !process.cancelled ==>
                    r.rc == if process.exitCode != 0 then process.exitCode else 1)
              && r.message == ""
    // a command that succeeds is still reported as failed once its output was cut short or its stdin read out
    ensures !(expiresAt > 0 && now > expiresAt) && process.Ended? ==>
              (stdoutBuf.short || stderrBuf.short || (stdin.Some? && stdin.value.ended) ==> r.rc != 0)
  {
    if expiresAt > 0 && now > expiresAt {
      return ExecResult(-1, [], [], "task expired", false);
    }
    if process.NotStarted? {
      return ExecResult(1, [], [], "failed to start command: " + process.reason, false);
    }
    var rc, truncated := 0, false;
    if Failed(process) {
      if process.deadlinePassed {
        rc, truncated := -15, true;
      } else if process.cancelled {
        rc := -15;
      } else if process.exitCode != 0 {
        rc := process.exitCode;
      } else {
        rc := 1;
      }
    }
    var stdout := stdoutBuf.data;
    if |stdout| > STDOUT_BUFFER_MAX {
      stdout := stdout[..STDOUT_BUFFER_MAX];
      truncated := true;
    }
    return ExecResult(rc, stdout, stderrBuf.data, "", truncated);
  }

  // ---- Any way of writing the same bytes gives the same result ----

  function Joined(writes: seq<seq<byte>>): seq<byte>
  {
    if writes == [] then [] else writes[0] + Joined(writes[1..])
  }

  /** What is held after the writes when each one is cut at n as it comes. */
  function Held(data: seq<byte>, writes: seq<seq<byte>>, n: nat): seq<byte>
    decreases |writes|
  {
    if writes == [] then data else Held(First(data + writes[0], n), writes[1..], n)
  }

  /** Cutting at every write is cutting the joined stream once: only the bytes matter, not how they were cut up. */
  lemma {:induction false} CutOnceIsEnough(data: seq<byte>, writes: seq<seq<byte>>, n: nat)
    requires |data| <= n
    ensures Held(data, writes, n) == First(data + Joined(writes), n)
    decreases |writes|
  {
    if writes == [] {
      assert data + Joined(writes) == data;
    } else {
      var s, rest := data + writes[0], Joined(writes[1..]);
      CutOnceIsEnough(First(s, n), writes[1..], n);
      assert data + Joined(writes) == s + rest;
      if |s| > n {
        FirstExtends(s, rest, n);
        FirstExtends(s[..n], rest, n);
      }
    }
  }

  /** Run's stdout is the first STDOUT_BUFFER_MAX bytes of the stream, and the margin tells if there were more. */
  lemma MarginDecides(written: seq<byte>)
    ensures First(First(written, HELD_MAX), STDOUT_BUFFER_MAX) == First(written, STDOUT_BUFFER_MAX)
    ensures |First(written, HELD_MAX)| > STDOUT_BUFFER_MAX <==> |written| > STDOUT_BUFFER_MAX
  {
    if |written| > HELD_MAX {
      assert written[..HELD_MAX][..STDOUT_BUFFER_MAX] == written[..STDOUT_BUFFER_MAX];
    }
  }
}
