/**
 * Capture instances of the wPerf recorder (recorder/event.c).
 *
 * Each instance copies one live trace source into one sink file.  It chains
 * asynchronous requests one at a time: open the source, then read a chunk,
 * write that chunk, read again, and so on.  It closes both ends once the
 * recorder has expired or an I/O error occurs.
 *
 * The I/O scheduler (the libuv loop) is not modelled.  A request that an
 * instance hands to it is appended to the instance's `issued` log.  The
 * completion of a request is an input to the callback that handles it:
 * OnOpen, OnRead and OnWrite below.  The `phase` field is not a field of the
 * C struct.  It records which completion the instance waits for, and so
 * which callback the loop will call next.
 */
module RecorderEvent {

  newtype byte = x: int | 0 <= x < 256

  /** Size of the transfer buffer each instance allocates (recorder/event.c:83). */
  const BUF_LEN: nat := 4096

  /** libuv's would-block status on Linux: UV_EAGAIN is -EAGAIN. */
  const UV_EAGAIN: int := -11

  // open(2) flags and mode bits, with their Linux values.
  const O_RDONLY: bv32 := 0x0
  const O_RDWR: bv32 := 0x2
  const O_CREAT: bv32 := 0x40
  const O_NONBLOCK: bv32 := 0x800
  /** Flags of the synchronous sink open. */
  const SINK_FLAGS: bv32 := O_CREAT | O_RDWR
  /** Permission bits of a created sink, octal 0644. */
  const SINK_MODE: bv32 := 0x1A4
  /** Flags of the asynchronous source open. */
  const SOURCE_FLAGS: bv32 := O_RDONLY | O_NONBLOCK

  type Path = string

  /** A request an instance hands to the file system layer. */
  datatype Request =
    | OpenSink(path: Path, flags: bv32, mode: bv32)   // synchronous; its result becomes fd[1]
    | OpenSource(path: Path, flags: bv32)             // completes in on_open
    | ReadReq(fd: int, len: nat)                      // completes in on_read
    | WriteReq(fd: int, data: seq<byte>)              // completes in on_write
    | FsyncReq(fd: int)                               // synchronous
    | CloseReq(fd: int)                               // synchronous

  /** The completion an instance waits for; Done follows cleanup, Failed a failed source open. */
  datatype Phase = Opening | Reading | Writing | Done | Failed

  /**
   * The state of one instance as a value: fd[0] and fd[1], the bytes of the
   * transfer buffer, iov.len, the phase, the bytes of the sink file so far,
   * and the log of issued requests.
   */
  datatype Inst = Inst(fd0: int, fd1: int, buf: seq<byte>, iovLen: nat,
                       phase: Phase, sink: seq<byte>, issued: seq<Request>)

  /** What cleanup issues, in order: close the source, flush the sink, close the sink. */
  function CleanupReqs(fd0: int, fd1: int): seq<Request>
  {
    [CloseReq(fd0), FsyncReq(fd1), CloseReq(fd1)]
  }

  /** cleanup(): issue the three cleanup requests; nothing is in flight afterwards. */
  function CleanupOf(s: Inst): Inst
  {
    s.(phase := Done, issued := s.issued + CleanupReqs(s.fd0, s.fd1))
  }

  /**
   * cleanup keeps the log issued so far and adds exactly three requests, none
   * of them a read or a write: the source is closed first, and the sink is
   * flushed before it is closed.  Nothing else about the instance changes.
   */
  lemma CleanupIssuesInOrder(s: Inst)
    ensures var r := CleanupOf(s);
            && r.phase == Done
            && r.fd0 == s.fd0 && r.fd1 == s.fd1 && r.buf == s.buf && r.iovLen == s.iovLen && r.sink == s.sink
            && |r.issued| == |s.issued| + 3 && r.issued[..|s.issued|] == s.issued
            && NoIo(r.issued[|s.issued|..])
            && r.issued[|s.issued|] == CloseReq(s.fd0)
            && r.issued[|s.issued| + 1] == FsyncReq(s.fd1) && r.issued[|s.issued| + 2] == CloseReq(s.fd1)
  {
  }

  /** on_open with the result of the source open. */
  function OpenStep(s: Inst, result: int): (r: Inst)
    ensures r.fd1 == s.fd1 && r.buf == s.buf && r.iovLen == s.iovLen && r.sink == s.sink
    // a failed open issues nothing, and in particular does not clean up
    ensures result < 0 <==> r.issued == s.issued
    ensures result < 0 ==> r.phase == Failed && r.fd0 == s.fd0
    // a successful open keeps the descriptor and issues exactly one read of the whole iov
    ensures result >= 0 ==>
              r.phase == Reading && r.fd0 == result && r.issued == s.issued + [ReadReq(result, s.iovLen)]
  {
    if result < 0 then s.(phase := Failed)
    else s.(fd0 := result, phase := Reading, issued := s.issued + [ReadReq(result, s.iovLen)])
  }

  /**
   * What a read completion may carry: `data` holds the bytes read, one per
   * unit of a positive result, and a read never returns more than iov.len.
   */
  predicate ReadFits(s: Inst, result: int, data: seq<byte>)
  {
    |data| == (if result > 0 then result else 0) && |data| <= s.iovLen <= |s.buf|
  }

  /**
   * on_read with the result of the read and the bytes it placed at the start
   * of the buffer.  The expiry check comes first, so a chunk read after expiry
   * is dropped.  A result of 0 (end of file) is an error like any other
   * negative result except UV_EAGAIN.
   */
  function ReadStep(s: Inst, expired: bool, result: int, data: seq<byte>): (r: Inst)
    requires ReadFits(s, result, data)
    ensures r.fd0 == s.fd0 && r.fd1 == s.fd1 && r.sink == s.sink
    ensures r.buf == data + s.buf[|data|..]
    ensures r.phase == Writing <==> !expired && result > 0
    ensures r.phase == Reading <==> !expired && result == UV_EAGAIN
    ensures r.phase == Done <==> expired || (result <= 0 && result != UV_EAGAIN)
    // a chunk is written whole to the sink, and iov.len shrinks to its size
    ensures r.phase == Writing ==>
              r.iovLen == result && r.issued == s.issued + [WriteReq(s.fd1, data)]
    ensures r.phase == Reading ==>
              r.iovLen == s.iovLen && r.issued == s.issued + [ReadReq(s.fd0, s.iovLen)]
    ensures r.phase == Done ==>
              r.iovLen == s.iovLen && r.issued == s.issued + CleanupReqs(s.fd0, s.fd1)
  {
    var filled := s.(buf := data + s.buf[|data|..]);
    if expired then CleanupOf(filled)
    else if result <= 0 then
      if result != UV_EAGAIN then CleanupOf(filled)
      else filled.(phase := Reading, issued := filled.issued + [ReadReq(filled.fd0, filled.iovLen)])
    else
      filled.(iovLen := result, phase := Writing, issued := filled.issued + [WriteReq(filled.fd1, data)])
  }

  /**
   * on_write with the result of the write.  The sink receives the first
   * `result` bytes of the buffer.  Any non-negative result counts as success,
   * so a short write loses the rest of the chunk.
   */
  function WriteStep(s: Inst, expired: bool, result: int): (r: Inst)
    requires result <= s.iovLen <= |s.buf|
    ensures r.fd0 == s.fd0 && r.fd1 == s.fd1 && r.buf == s.buf && r.iovLen == s.iovLen
    ensures r.sink == if result < 0 then s.sink else s.sink + s.buf[..result]
    ensures r.phase == Reading <==> result >= 0 && !expired
    ensures r.phase == Done <==> result < 0 || expired
    ensures r.phase == Reading ==> r.issued == s.issued + [ReadReq(s.fd0, s.iovLen)]
    ensures r.phase == Done ==> r.issued == s.issued + CleanupReqs(s.fd0, s.fd1)
  {
    var written := if result < 0 then s else s.(sink := s.sink + s.buf[..result]);
    if result < 0 || expired then CleanupOf(written)
    else written.(phase := Reading, issued := written.issued + [ReadReq(written.fd0, written.iovLen)])
  }

  /** An instance as record_events leaves it (recorder/event.c:111-116); the buffer holds arbitrary bytes. */
  predicate Started(s: Inst, source: Path, sinkPath: Path, sinkFd: int)
  {
    s.fd0 == -1 && s.fd1 == sinkFd && |s.buf| == BUF_LEN && s.iovLen == BUF_LEN
    && s.phase == Opening && s.sink == []
    && s.issued == [OpenSink(sinkPath, SINK_FLAGS, SINK_MODE), OpenSource(source, SOURCE_FLAGS)]
  }

  // ---------------------------------------------------------------------
  // Runs of an instance

  /** The completion of the request in flight. */
  datatype Completion = Opened(result: int) | ReadDone(result: int, data: seq<byte>) | Written(result: int)

  /** A completion, with the value of the recorder's `expired` flag when its callback runs. */
  datatype Step = Step(done: Completion, expired: bool)

  /** The loop only completes the request that is in flight. */
  predicate Admissible(s: Inst, c: Completion)
  {
    match c
    case Opened(_) => s.phase == Opening
    case ReadDone(result, data) => s.phase == Reading && ReadFits(s, result, data)
    case Written(result) => s.phase == Writing && result <= s.iovLen <= |s.buf|
  }

  function Apply(s: Inst, st: Step): Inst
    requires Admissible(s, st.done)
  {
    match st.done
    case Opened(result) => OpenStep(s, result)
    case ReadDone(result, data) => ReadStep(s, st.expired, result, data)
    case Written(result) => WriteStep(s, st.expired, result)
  }

  /** Every completion of `steps` answers the request in flight at its turn. */
  predicate Wf(s: Inst, steps: seq<Step>)
    decreases |steps|
  {
    steps == [] || (Admissible(s, steps[0].done) && Wf(Apply(s, steps[0]), steps[1..]))
  }

  function Run(s: Inst, steps: seq<Step>): Inst
    requires Wf(s, steps)
    decreases |steps|
  {
    if steps == [] then s else Run(Apply(s, steps[0]), steps[1..])
  }

  predicate IsIo(q: Request) { q.ReadReq? || q.WriteReq? }

  predicate IsCleanup(q: Request) { q.FsyncReq? || q.CloseReq? }

  predicate NoIo(log: seq<Request>) { forall k :: 0 <= k < |log| ==> !IsIo(log[k]) }

  predicate NoCleanup(log: seq<Request>) { forall k :: 0 <= k < |log| ==> !IsCleanup(log[k]) }

  /**
   * Reads go to the source with a capacity between the current iov.len and
   * BUF_LEN, and later reads never ask for more than earlier ones; writes go
   * to the sink, and each write comes straight after a read.
   */
  predicate Alternates(log: seq<Request>, fd0: int, fd1: int, iovLen: nat)
  {
    && (forall k :: 0 <= k < |log| && log[k].ReadReq? ==>
          log[k].fd == fd0 && iovLen <= log[k].len <= BUF_LEN)
    && (forall k :: 0 <= k < |log| && log[k].WriteReq? ==>
          log[k].fd == fd1 && 0 < k && log[k - 1].ReadReq?)
    && (forall j, k :: 0 <= j < k < |log| && log[j].ReadReq? && log[k].ReadReq? ==>
          log[k].len <= log[j].len)
  }

  /**
   * The last issued request is the one in flight; cleanup has been issued
   * exactly when the instance is Done, then only once and as the last three
   * requests; a failed open has issued no I/O at all.
   */
  predicate InFlight(s: Inst)
  {
    match s.phase
    case Opening => NoIo(s.issued) && NoCleanup(s.issued)
    case Failed => NoIo(s.issued) && NoCleanup(s.issued)
    case Reading =>
      |s.issued| > 0 && s.issued[|s.issued| - 1] == ReadReq(s.fd0, s.iovLen) && NoCleanup(s.issued)
    case Writing =>
      |s.issued| > 0 && s.iovLen <= |s.buf|
      && s.issued[|s.issued| - 1] == WriteReq(s.fd1, s.buf[..s.iovLen]) && NoCleanup(s.issued)
    case Done =>
      |s.issued| >= 3 && s.issued[|s.issued| - 3..] == CleanupReqs(s.fd0, s.fd1)
      && NoCleanup(s.issued[..|s.issued| - 3])
  }

  predicate Inv(s: Inst)
  {
    |s.buf| == BUF_LEN && 1 <= s.iovLen <= BUF_LEN
    && Alternates(s.issued, s.fd0, s.fd1, s.iovLen) && InFlight(s)
  }

  lemma StartedKeepsInv(s: Inst, source: Path, sinkPath: Path, sinkFd: int)
    requires Started(s, source, sinkPath, sinkFd)
    ensures Inv(s)
  {
  }

  /** Appending one request of the given kind keeps the log free of cleanup requests. */
  lemma NoCleanupAppend(log: seq<Request>, q: Request)
    requires NoCleanup(log) && !IsCleanup(q)
    ensures NoCleanup(log + [q])
  {
    assert forall k :: 0 <= k < |log| ==> (log + [q])[k] == log[k];
  }

  lemma CleanupKeepsInv(s: Inst)
    requires |s.buf| == BUF_LEN && 1 <= s.iovLen <= BUF_LEN
    requires Alternates(s.issued, s.fd0, s.fd1, s.iovLen) && NoCleanup(s.issued)
    ensures Inv(CleanupOf(s))
  {
    var r := CleanupOf(s);
    assert r.issued[..|r.issued| - 3] == s.issued;
    assert r.issued[|r.issued| - 3..] == CleanupReqs(s.fd0, s.fd1);
    forall k | 0 <= k < |r.issued| && r.issued[k].WriteReq?
      ensures r.issued[k].fd == r.fd1 && 0 < k && r.issued[k - 1].ReadReq?
    {
      assert k < |s.issued| && r.issued[k] == s.issued[k] && r.issued[k - 1] == s.issued[k - 1];
    }
    forall k | 0 <= k < |r.issued| && r.issued[k].ReadReq?
      ensures r.issued[k].fd == r.fd0 && r.iovLen <= r.issued[k].len <= BUF_LEN
    {
      assert k < |s.issued| && r.issued[k] == s.issued[k];
    }
    forall j, k | 0 <= j < k < |r.issued| && r.issued[j].ReadReq? && r.issued[k].ReadReq?
      ensures r.issued[k].len <= r.issued[j].len
    {
      assert k < |s.issued| && r.issued[k] == s.issued[k] && r.issued[j] == s.issued[j];
    }
  }

  /** A read of the current capacity appended to an alternating log keeps it alternating. */
  lemma ReadAppendAlternates(log: seq<Request>, fd0: int, fd1: int, iovLen: nat)
    requires Alternates(log, fd0, fd1, iovLen) && iovLen <= BUF_LEN
    ensures Alternates(log + [ReadReq(fd0, iovLen)], fd0, fd1, iovLen)
  {
    var r := log + [ReadReq(fd0, iovLen)];
    forall k | 0 <= k < |r| && r[k].WriteReq?
      ensures r[k].fd == fd1 && 0 < k && r[k - 1].ReadReq?
    {
      assert k < |log| && r[k] == log[k] && r[k - 1] == log[k - 1];
    }
    forall j, k | 0 <= j < k < |r| && r[j].ReadReq? && r[k].ReadReq?
      ensures r[k].len <= r[j].len
    {
      assert r[j] == log[j];
      if k < |log| { assert r[k] == log[k]; }
    }
  }

  /** A write appended straight after a read keeps the log alternating, with iov.len shrunk to the write's size. */
  lemma WriteAppendAlternates(log: seq<Request>, fd0: int, fd1: int, iovLen: nat, n: nat, data: seq<byte>)
    requires Alternates(log, fd0, fd1, iovLen) && n <= iovLen
    requires |log| > 0 && log[|log| - 1].ReadReq?
    ensures Alternates(log + [WriteReq(fd1, data)], fd0, fd1, n)
  {
    var r := log + [WriteReq(fd1, data)];
    forall k | 0 <= k < |r| && r[k].WriteReq?
      ensures r[k].fd == fd1 && 0 < k && r[k - 1].ReadReq?
    {
      if k < |log| { assert r[k] == log[k] && r[k - 1] == log[k - 1]; }
      else { assert r[k - 1] == log[|log| - 1]; }
    }
    forall k | 0 <= k < |r| && r[k].ReadReq?
      ensures r[k].fd == fd0 && n <= r[k].len <= BUF_LEN
    {
      assert k < |log| && r[k] == log[k];
    }
    forall j, k | 0 <= j < k < |r| && r[j].ReadReq? && r[k].ReadReq?
      ensures r[k].len <= r[j].len
    {
      assert k < |log| && r[k] == log[k] && r[j] == log[j];
    }
  }

  /** Every completion the loop delivers keeps the invariant. */
  lemma StepKeepsInv(s: Inst, st: Step)
    requires Inv(s) && Admissible(s, st.done)
    ensures Inv(Apply(s, st))
  {
    match st.done
    case Opened(result) =>
      if result >= 0 {
        var r := OpenStep(s, result);
        assert forall k :: 0 <= k < |s.issued| ==> r.issued[k] == s.issued[k];
        NoCleanupAppend(s.issued, ReadReq(result, s.iovLen));
      }
    case ReadDone(result, data) =>
      var filled := s.(buf := data + s.buf[|data|..]);
      if st.expired || (result <= 0 && result != UV_EAGAIN) {
        CleanupKeepsInv(filled);
      } else if result <= 0 {
        ReadAppendAlternates(s.issued, s.fd0, s.fd1, s.iovLen);
        NoCleanupAppend(s.issued, ReadReq(s.fd0, s.iovLen));
      } else {
        WriteAppendAlternates(s.issued, s.fd0, s.fd1, s.iovLen, result, data);
        NoCleanupAppend(s.issued, WriteReq(s.fd1, data));
        assert ReadStep(s, st.expired, result, data).buf[..result] == data;
      }
    case Written(result) =>
      var written := if result < 0 then s else s.(sink := s.sink + s.buf[..result]);
      if result < 0 || st.expired {
        CleanupKeepsInv(written);
      } else {
        ReadAppendAlternates(s.issued, s.fd0, s.fd1, s.iovLen);
        NoCleanupAppend(s.issued, ReadReq(s.fd0, s.iovLen));
      }
  }

  /**
   * The invariant holds along every run: at most one request is in flight,
   * reads and writes alternate, read capacity never grows, and cleanup is
   * issued at most once and nothing after it.
   */
  lemma {:induction false} RunKeepsInv(s: Inst, steps: seq<Step>)
    requires Inv(s) && Wf(s, steps)
    ensures Inv(Run(s, steps))
    decreases |steps|
  {
    if steps != [] {
      StepKeepsInv(s, steps[0]);
      RunKeepsInv(Apply(s, steps[0]), steps[1..]);
    }
  }

  /** iov.len is never restored: along a run it can only shrink. */
  lemma {:induction false} RunNeverGrowsCapacity(s: Inst, steps: seq<Step>)
    requires Wf(s, steps)
    ensures Run(s, steps).iovLen <= s.iovLen
    decreases |steps|
  {
    if steps != [] {
      RunNeverGrowsCapacity(Apply(s, steps[0]), steps[1..]);
    }
  }

  /**
   * Once cleaned up or failed, an instance has nothing in flight and a run
   * cannot go on.  This holds by the definition of Admissible, which admits no
   * completion in Done or Failed; it is stated for readers.
   */
  lemma {:induction false} TerminalRunIsEmpty(s: Inst, steps: seq<Step>)
    requires s.phase == Done || s.phase == Failed
    requires Wf(s, steps)
    ensures steps == [] && Run(s, steps) == s
  {
  }

  // ---------------------------------------------------------------------
  // What reaches the sink

  /** The chunk a read completion hands on to a write: data read before expiry. */
  function Forwarded(st: Step): seq<byte>
  {
    match st.done
    case ReadDone(result, data) => if result > 0 && !st.expired then data else []
    case _ => []
  }

  /** The in-order concatenation of the chunks a run hands on to writes. */
  function ForwardedBytes(steps: seq<Step>): seq<byte>
    decreases |steps|
  {
    if steps == [] then [] else Forwarded(steps[0]) + ForwardedBytes(steps[1..])
  }

  /** A well-formed run in which every write completes in full. */
  predicate WritesComplete(s: Inst, steps: seq<Step>)
    decreases |steps|
  {
    steps == []
    || (&& Admissible(s, steps[0].done)
        && (steps[0].done.Written? ==> steps[0].done.result == s.iovLen)
        && WritesComplete(Apply(s, steps[0]), steps[1..]))
  }

  /** The sink holds `fwd`, except for the chunk of a write still in flight. */
  predicate SinkHolds(s: Inst, fwd: seq<byte>)
  {
    if s.phase == Writing then s.iovLen <= |s.buf| && s.sink + s.buf[..s.iovLen] == fwd
    else s.sink == fwd
  }

  lemma StepKeepsSink(s: Inst, st: Step, fwd: seq<byte>)
    requires SinkHolds(s, fwd) && Admissible(s, st.done)
    requires st.done.Written? ==> st.done.result == s.iovLen
    ensures SinkHolds(Apply(s, st), fwd + Forwarded(st))
  {
    match st.done
    case Opened(_) =>
      assert fwd + Forwarded(st) == fwd;
    case ReadDone(result, data) =>
      var r := Apply(s, st);
      if result > 0 && !st.expired {
        assert r.buf[..r.iovLen] == data;
      } else {
        assert fwd + Forwarded(st) == fwd;
      }
    case Written(_) =>
      assert fwd + Forwarded(st) == fwd;
  }

  /**
   * When every write completes in full, the sink holds exactly the in-order
   * concatenation of the chunks read, apart from the chunk whose write is in
   * flight.  Chunks read after expiry, and failed or would-block reads, add
   * nothing.
   */
  /** A run in which every write completes in full answers the request in flight at each turn. */
  lemma {:induction false} WritesCompleteIsWf(s: Inst, steps: seq<Step>)
    requires WritesComplete(s, steps)
    ensures Wf(s, steps)
    decreases |steps|
  {
    if steps != [] {
      WritesCompleteIsWf(Apply(s, steps[0]), steps[1..]);
    }
  }

  /** The first completion of a run with complete writes, and the rest of that run. */
  lemma CompleteStep(s: Inst, steps: seq<Step>)
    requires steps != [] && WritesComplete(s, steps)
    ensures Admissible(s, steps[0].done)
    ensures steps[0].done.Written? ==> steps[0].done.result == s.iovLen
    ensures WritesComplete(Apply(s, steps[0]), steps[1..])
  {
  }

  /** A run is its first completion followed by the rest. */
  lemma RunStep(s: Inst, steps: seq<Step>)
    requires steps != [] && Wf(s, steps)
    ensures Admissible(s, steps[0].done) && Run(s, steps) == Run(Apply(s, steps[0]), steps[1..])
  {
  }

  /** The forwarded bytes of a run are those of its first completion followed by the rest. */
  lemma ForwardedCons(steps: seq<Step>, fwd: seq<byte>)
    requires steps != []
    ensures fwd + ForwardedBytes(steps) == (fwd + Forwarded(steps[0])) + ForwardedBytes(steps[1..])
  {
  }

  lemma {:induction false} SinkIsForwardedChunks(s: Inst, steps: seq<Step>, fwd: seq<byte>)
    requires SinkHolds(s, fwd) && WritesComplete(s, steps)
    ensures Wf(s, steps) && SinkHolds(Run(s, steps), fwd + ForwardedBytes(steps))
    decreases |steps|
  {
    WritesCompleteIsWf(s, steps);
    if steps != [] {
      CompleteStep(s, steps);
      StepKeepsSink(s, steps[0], fwd);
      SinkIsForwardedChunks(Apply(s, steps[0]), steps[1..], fwd + Forwarded(steps[0]));
      RunStep(s, steps);
      ForwardedCons(steps, fwd);
    }
  }

  /** From a freshly started instance: the sink is the concatenation of the chunks read. */
  lemma StartedSinkIsForwardedChunks(s: Inst, source: Path, sinkPath: Path, sinkFd: int, steps: seq<Step>)
    requires Started(s, source, sinkPath, sinkFd) && WritesComplete(s, steps)
    ensures Wf(s, steps) && Inv(Run(s, steps))
    ensures Run(s, steps).phase != Writing ==> Run(s, steps).sink == ForwardedBytes(steps)
    ensures Run(s, steps).phase == Writing ==>
              Run(s, steps).sink + Run(s, steps).buf[..Run(s, steps).iovLen] == ForwardedBytes(steps)
  {
    SinkIsForwardedChunks(s, steps, []);
    assert [] + ForwardedBytes(steps) == ForwardedBytes(steps);
    RunKeepsInv(s, steps);
  }

  // ---------------------------------------------------------------------
  // Example sessions

  /** Chunk a, would-block, chunk b, each write in full: the sink holds a + b; b cannot exceed a. */
  lemma ChunkWouldBlockChunk(s: Inst, fd: int, a: seq<byte>, b: seq<byte>)
    requires |s.buf| == BUF_LEN && s.phase == Opening && s.sink == [] && s.iovLen == BUF_LEN && fd >= 0
    requires 0 < |b| <= |a| <= BUF_LEN
    ensures var s1 := OpenStep(s, fd);
            var s2 := ReadStep(s1, false, |a|, a);
            var s3 := WriteStep(s2, false, |a|);
            var s4 := ReadStep(s3, false, UV_EAGAIN, []);
            var s5 := ReadStep(s4, false, |b|, b);
            var s6 := WriteStep(s5, false, |b|);
            s6.sink == a + b && s6.phase == Reading && s6.iovLen == |b|
            && s6.issued == s.issued + [ReadReq(fd, BUF_LEN), WriteReq(s.fd1, a), ReadReq(fd, |a|),
                                        ReadReq(fd, |a|), WriteReq(s.fd1, b), ReadReq(fd, |b|)]
  {
    var s1 := OpenStep(s, fd);
    var s2 := ReadStep(s1, false, |a|, a);
    assert s2.phase == Writing && s2.buf[..|a|] == a;
    var s3 := WriteStep(s2, false, |a|);
    assert s3.phase == Reading && s3.sink == a && |s3.buf| == BUF_LEN;
    assert s3.issued == s.issued + [ReadReq(fd, BUF_LEN), WriteReq(s.fd1, a), ReadReq(fd, |a|)];
    var s4 := ReadStep(s3, false, UV_EAGAIN, []);
    assert s4.phase == Reading && s4.buf == s3.buf && s4.iovLen == |a|;
    var s5 := ReadStep(s4, false, |b|, b);
    assert s5.phase == Writing && s5.buf[..|b|] == b;
  }

  /** Chunk a, then a read error: the sink holds a and cleanup is the last thing issued. */
  lemma ChunkThenReadError(s: Inst, fd: int, a: seq<byte>, err: int)
    requires Inv(s) && s.phase == Opening && s.sink == [] && fd >= 0
    requires 0 < |a| <= s.iovLen && err < 0 && err != UV_EAGAIN
    ensures var s1 := OpenStep(s, fd);
            var s2 := ReadStep(s1, false, |a|, a);
            var s3 := WriteStep(s2, false, |a|);
            var s4 := ReadStep(s3, false, err, []);
            s4.sink == a && s4.phase == Done
            && s4.issued == s.issued + [ReadReq(fd, s.iovLen), WriteReq(s.fd1, a), ReadReq(fd, |a|)]
                                     + CleanupReqs(fd, s.fd1)
  {
    var s1 := OpenStep(s, fd);
    var s2 := ReadStep(s1, false, |a|, a);
    assert s2.buf[..|a|] == a;
  }

  /** Expiry while a write is in flight: the write lands, then cleanup instead of another read. */
  lemma ExpiryDuringWrite(s: Inst)
    requires Inv(s) && s.phase == Writing
    ensures var r := WriteStep(s, true, s.iovLen);
            r.sink == s.sink + s.buf[..s.iovLen] && r.phase == Done
            && r.issued == s.issued + CleanupReqs(s.fd0, s.fd1)
  {
  }

  // ---------------------------------------------------------------------
  // The instances as objects

  /** struct event_ctx, plus the model's phase, sink contents and request log. */
  class EventCtx {
    var recorder: Recorder
    var fd0: int
    var fd1: int
    var buf: array<byte>
    var iovLen: nat
    var phase: Phase
    var sink: seq<byte>
    var issued: seq<Request>

    function Abs(): Inst
      reads this, buf
    {
      Inst(fd0, fd1, buf[..], iovLen, phase, sink, issued)
    }

    /** init_event_ctx once the buffer is allocated (its bytes are arbitrary, as malloc's are). */
    constructor (rec: Recorder)
      ensures recorder == rec && fd0 == -1 && fd1 == -1
      ensures fresh(buf) && buf.Length == BUF_LEN && iovLen == BUF_LEN
      ensures phase == Opening && sink == [] && issued == []
    {
      recorder := rec;
      fd0 := -1;
      fd1 := -1;
      buf := new byte[BUF_LEN];
      iovLen := BUF_LEN;
      phase := Opening;
      sink := [];
      issued := [];
    }

    /**
     * The rest of one iteration of record_events on a fresh context: store the
     * synchronous sink open in fd[1], then ask for the source to be opened.
     */
    method Start(source: Path, sinkPath: Path, sinkFd: int)
      requires fd0 == -1 && buf.Length == BUF_LEN && iovLen == BUF_LEN
      requires phase == Opening && sink == [] && issued == []
      modifies this
      ensures Started(Abs(), source, sinkPath, sinkFd)
      ensures recorder == old(recorder) && buf == old(buf)
    {
      fd1 := sinkFd;
      issued := issued + [OpenSink(sinkPath, SINK_FLAGS, SINK_MODE)];
      issued := issued + [OpenSource(source, SOURCE_FLAGS)];
    }

    method Cleanup()
      modifies this
      ensures buf == old(buf) && recorder == old(recorder)
      ensures Abs() == CleanupOf(old(Abs()))
    {
      issued := issued + [CloseReq(fd0)];
      issued := issued + [FsyncReq(fd1)];
      issued := issued + [CloseReq(fd1)];
      phase := Done;
    }

    method OnOpen(result: int)
      modifies this
      ensures buf == old(buf) && recorder == old(recorder)
      ensures Abs() == OpenStep(old(Abs()), result)
    {
      if result < 0 {
        phase := Failed;
        return;
      }
      fd0 := result;
      issued := issued + [ReadReq(fd0, iovLen)];
      phase := Reading;
    }

    /** The completed read has placed `data` at the start of the buffer; then on_read runs. */
    method OnRead(result: int, data: seq<byte>)
      requires ReadFits(Abs(), result, data)
      modifies this, buf
      ensures buf == old(buf) && recorder == old(recorder)
      ensures Abs() == ReadStep(old(Abs()), old(recorder.expired), result, data)
    {
      forall k | 0 <= k < |data| {
        buf[k] := data[k];
      }
      assert buf[..] == data + old(buf[..])[|data|..];
      if recorder.expired {
        Cleanup();
        return;
      }
      if result <= 0 {
        if result != UV_EAGAIN {
          Cleanup();
          return;
        }
        issued := issued + [ReadReq(fd0, iovLen)];
        phase := Reading;
        return;
      }
      iovLen := result;
      issued := issued + [WriteReq(fd1, buf[..iovLen])];
      phase := Writing;
    }

    /** The completed write has appended its first `result` bytes to the sink; then on_write runs. */
    method OnWrite(result: int)
      requires result <= iovLen <= buf.Length
      modifies this
      ensures buf == old(buf) && recorder == old(recorder)
      ensures Abs() == WriteStep(old(Abs()), old(recorder.expired), result)
    {
      if result >= 0 {
        sink := sink + buf[..result];
      }
      if result < 0 {
        Cleanup();
        return;
      }
      if recorder.expired {
        Cleanup();
        return;
      }
      issued := issued + [ReadReq(fd0, iovLen)];
      phase := Reading;
    }
  }

  /** init_event_ctx: -1 when the buffer cannot be allocated. */
  method InitEventCtx(rec: Recorder, bufAllocated: bool) returns (rc: int, ev: EventCtx?)
    ensures rc == -1 <==> !bufAllocated
    ensures rc == -1 ==> ev == null
    ensures rc != -1 ==> rc == 0 && ev != null && fresh(ev) && fresh(ev.buf)
    ensures ev != null ==> ev.recorder == rec && ev.fd0 == -1 && ev.fd1 == -1
    ensures ev != null ==> ev.buf.Length == BUF_LEN && ev.iovLen == BUF_LEN
    ensures ev != null ==> ev.phase == Opening && ev.sink == [] && ev.issued == []
  {
    if !bufAllocated {
      return -1, null;
    }
    ev := new EventCtx(rec);
    rc := 0;
  }

  /** The first index whose allocation failed, or |ok| when none did. */
  function FirstFailure(ok: seq<bool>): (n: nat)
    ensures n <= |ok|
    ensures forall i :: 0 <= i < n ==> ok[i]
    ensures n < |ok| ==> !ok[n]
    decreases |ok|
  {
    if ok == [] || !ok[0] then 0 else 1 + FirstFailure(ok[1..])
  }

  /** How record_events ends: its return value, or the abort of its assert on a failed init_event_ctx. */
  datatype RecordOutcome = Returned(code: int) | AssertionFailed(index: nat)

  /** struct recorder: the shared `expired` flag and the instances. */
  class Recorder {
    var expired: bool
    var events: seq<EventCtx>

    constructor ()
      ensures !expired && events == []
    {
      expired := false;
      events := [];
    }

    /**
     * One iteration of record_events: initialise a context, open sink
     * `sinkPath` synchronously into fd[1] and ask for `source` to be opened.
     * -1, with nothing added, when the buffer cannot be allocated.
     */
    method AddInstance(source: Path, sinkPath: Path, bufAllocated: bool, sinkFd: int)
      returns (rc: int, ev: EventCtx?)
      modifies this
      ensures expired == old(expired)
      ensures rc == -1 <==> !bufAllocated
      ensures rc == -1 ==> events == old(events)
      ensures rc != -1 ==>
                rc == 0 && ev != null && events == old(events) + [ev]
                && fresh(ev) && fresh(ev.buf) && ev.recorder == this
                && Started(ev.Abs(), source, sinkPath, sinkFd)
    {
      rc, ev := InitEventCtx(this, bufAllocated);
      if rc != 0 {
        return;
      }
      ev.Start(source, sinkPath, sinkFd);
      events := events + [ev];
    }

    /**
     * record_events: allocate the contexts, then for each instance initialise
     * it, open the sink synchronously into fd[1] and ask for the source to be
     * opened.  `sinkFds[i]` is what the synchronous open of sink i returns.
     */
    method RecordEvents(sources: seq<Path>, sinks: seq<Path>, eventsAllocated: bool,
                        bufAllocated: seq<bool>, sinkFds: seq<int>) returns (outcome: RecordOutcome)
      requires |sinks| == |sources| && |bufAllocated| == |sources| && |sinkFds| == |sources|
      modifies this
      ensures expired == old(expired)
      // recorder->events takes malloc's NULL before it is tested, so no context is left
      ensures !eventsAllocated ==> outcome == Returned(-1) && events == []
      ensures eventsAllocated ==>
                |events| == FirstFailure(bufAllocated)
                && outcome == (if |events| == |sources| then Returned(0) else AssertionFailed(|events|))
      ensures eventsAllocated ==>
                forall i :: 0 <= i < |events| ==>
                  fresh(events[i]) && fresh(events[i].buf) && events[i].recorder == this
                  && Started(events[i].Abs(), sources[i], sinks[i], sinkFds[i])
      ensures eventsAllocated ==>
                forall i, j :: 0 <= i < j < |events| ==> events[i] != events[j] && events[i].buf != events[j].buf
    {
      events := [];
      if !eventsAllocated {
        return Returned(-1);
      }
      var i := 0;
      while i < |sources|
        invariant 0 <= i <= |sources| && |events| == i
        invariant expired == old(expired)
        invariant forall k :: 0 <= k < i ==> bufAllocated[k]
        invariant forall k :: 0 <= k < i ==>
                    fresh(events[k]) && fresh(events[k].buf) && events[k].recorder == this
                    && Started(events[k].Abs(), sources[k], sinks[k], sinkFds[k])
        invariant forall j, k :: 0 <= j < k < i ==> events[j] != events[k] && events[j].buf != events[k].buf
      {
        var rc, ev := AddInstance(sources[i], sinks[i], bufAllocated[i], sinkFds[i]);
        if rc != 0 {
          return AssertionFailed(i);
        }
        i := i + 1;
      }
      return Returned(0);
    }
  }
}
