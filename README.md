# wPerf capture instances and kernel hooks, modelled in Dafny

This project models the two stateful cores of wPerf.

`RecorderEvent` (recorder_event.dfy) covers `recorder/event.c`. Each capture instance copies one live trace source into one sink file. It is driven by the completion callbacks `on_open`, `on_read` and `on_write`, and it ends in `cleanup`.
- An instance's state is a value, `Inst`. Its fields are `fd[0]`, `fd[1]`, the transfer buffer, `iov.len`, a phase, the sink contents and the log of issued requests.
- Each callback is a step function on that value: `OpenStep`, `ReadStep`, `WriteStep`, `CleanupOf`.
- The class `EventCtx` keeps the same fields in place. The buffer is an `array<byte>` of 4096 bytes. Each callback method is proved to move its fields exactly as the step function does.
- The class `Recorder` holds the shared `expired` flag and runs `record_events`.
- Runs of an instance (`Run` over a sequence of completions) are proved to keep an invariant:
  - one request at a time;
  - each write comes straight after a read;
  - read capacity never grows;
  - cleanup is issued once, last, and in the order close source, fsync sink, close sink.
- When every write completes in full, the sink holds the in-order concatenation of the chunks that were read before expiry.

`TraceWperfEvents` (trace_wperf_events.dfy) covers `module/trace_wperf_events.c`.
- Every hook handler is the pure function `Step`. It maps the per-CPU records, a CPU, the handler's arguments and a time stamp to new records and an optional trace event.
- The class `WperfCpuData` holds the records in an array indexed by CPU. It has one method per handler that writes a record.
- `ProbeRegistry` models `trace_wperf_events_init` and `_exit` as two registration batches, each of which may fail.
- Replays of handler sequences are proved to touch only the running CPU's record and never to produce `HARDIRQ` or `KERNEL`. They are also proved to report the `__do_softirq` begin time stored at entry, whatever the return time.

The model keeps these behaviours of the code, which a reader might not expect:
- A read result of 0 (end of file) leads to cleanup.
- Expiry is checked when a read completes, before its data is used, as well as when a write completes. A chunk read after expiry is dropped.
- `cleanup` closes and flushes the descriptors and leaves the transfer buffer allocated.
- A failed source open returns without any cleanup, so the sink stays open.
- A short write counts as success and the rest of the chunk is lost.
- The `__do_softirq` return hook emits the stored begin time. Its entry hook records the time and leaves the phase as it was.
- Init leaves the jprobes registered when the kretprobes fail (see Findings).

Assumptions:
- `NR_SOFTIRQS` is 10 and the softirq numbers follow `linux/interrupt.h`. HRTIMER_SOFTIRQ (8) has no hook.
- `UV_EAGAIN` is -11 and the open flags take their Linux values.
- `softirq_btime` is a C `int` that receives a 64-bit counter. It gets the low 32 bits read as two's complement, which is GCC's behaviour (`TruncateToInt`).

## Model

| member | source | states |
|---|---|---|
| `RecorderEvent.OpenStep` | recorder/event.c:64-78 | A negative open result issues nothing at all (no read, no cleanup) and leaves the instance Failed.<br>Otherwise the result becomes fd[0] and exactly one read of the whole iov is issued on it. |
| `RecorderEvent.ReadStep` | recorder/event.c:35-62 | Expiry goes to cleanup even when the read returned data, and that data is dropped.<br>Only UV_EAGAIN re-issues a read. A result of 0 or any other non-positive value goes to cleanup.<br>A positive result n shrinks iov.len to n and issues one write of exactly those n bytes to fd[1]. |
| `RecorderEvent.WriteStep` | recorder/event.c:12-33 | The sink gains the first `result` bytes of the buffer.<br>A negative result or expiry goes to cleanup. Any non-negative result, even a short one, issues exactly one new read. |
| `RecorderEvent.CleanupIssuesInOrder` | recorder/event.c:5-10 | The pure cleanup step `CleanupOf`: the log so far is kept and exactly three requests follow it. None of them is a read or a write.<br>Close of fd[0] comes first, then fsync of fd[1], then close of fd[1]. The instance is Done and nothing else changes. |
| `RecorderEvent.EventCtx.Cleanup` | recorder/event.c:5-10 | Issues close of fd[0], fsync of fd[1] and close of fd[1], in that order. Nothing is left in flight. |
| `RecorderEvent.EventCtx.OnOpen` | recorder/event.c:64-78 | The in-place callback changes the instance's fields exactly as OpenStep does. |
| `RecorderEvent.EventCtx.OnRead` | recorder/event.c:35-62 | The completed read fills the start of the 4096-byte buffer array. The callback then changes the fields exactly as ReadStep does. |
| `RecorderEvent.EventCtx.OnWrite` | recorder/event.c:12-33 | The completed write appends its bytes to the sink. The callback then changes the fields exactly as WriteStep does. |
| `RecorderEvent.EventCtx.constructor` | recorder/event.c:89-94 | A context bound to its recorder has fd[0] = fd[1] = -1, a fresh 4096-byte buffer and iov.len 4096. |
| `RecorderEvent.InitEventCtx` | recorder/event.c:80-97 | Returns -1, with no context, exactly when the buffer allocation fails. Otherwise it returns 0 and an initialised context. |
| `RecorderEvent.FirstFailure` | recorder/event.c:109-111 | The first instance whose initialisation fails: every earlier one succeeded and this one did not. |
| `RecorderEvent.EventCtx.Start` | recorder/event.c:112-116 | On a freshly initialised context: fd[1] holds what the synchronous sink open returned. The sink open and then the source open are the only requests issued, and the instance waits for the source open. |
| `RecorderEvent.Recorder.AddInstance` | recorder/event.c:110-116 | One loop iteration of record_events. Returns -1 exactly when the buffer cannot be allocated, and then adds nothing.<br>Otherwise it appends one fresh context, with a fresh buffer, bound to this recorder and started on the given source and sink. |
| `RecorderEvent.Recorder.RecordEvents` | recorder/event.c:99-120 | Returns -1 when the context array cannot be allocated, and leaves the recorder with no contexts.<br>Otherwise, for each instance in turn: initialise it, store the synchronous sink open (O_CREAT\|O_RDWR, 0644) in fd[1], then issue the source open (O_RDONLY\|O_NONBLOCK).<br>The instances are distinct fresh objects with distinct buffers. A failed initialisation stops at its index, where the assert aborts. |
| `RecorderEvent.StartedKeepsInv` | recorder/event.c:109-116 | An instance as record_events leaves it satisfies the run invariant. |
| `RecorderEvent.StepKeepsInv` | recorder/event.c:12-78 | Any completion of the request in flight keeps the invariant.<br>The invariant says: the last request is the one in flight, writes follow reads, read capacity never grows, and cleanup is issued once, last and in order. |
| `RecorderEvent.RunKeepsInv` | recorder/event.c:27-29 | Along every run: at most one request is in flight, and no two writes are adjacent. Every write goes to fd[1] straight after a read, and a would-block retry repeats the read.<br>Cleanup is issued once, and nothing comes after it. |
| `RecorderEvent.RunNeverGrowsCapacity` | recorder/event.c:55 | iov.len is never restored: after any run it is at most what it was. |
| `RecorderEvent.TerminalRunIsEmpty` | recorder/event.c:70-73 | After cleanup or a failed open, nothing is in flight, so no further read or write can happen. This holds by the definition of the admissible completions. |
| `RecorderEvent.SinkIsForwardedChunks` | recorder/event.c:41-58 | With every write complete, the sink grows by exactly the chunks that reads handed on to writes, in order.<br>It excludes the chunk of a write still in flight. Expired, failed and would-block reads add nothing. |
| `RecorderEvent.StartedSinkIsForwardedChunks` | recorder/event.c:35-58 | From a freshly started instance, the sink equals the in-order concatenation of the chunks read before expiry, and the invariant holds. |
| `RecorderEvent.ChunkWouldBlockChunk` | recorder/event.c:44-57 | Chunk a, would-block, then chunk b: the sink holds a + b.<br>The retried and the following reads ask for only \|a\| bytes, so b cannot be longer than a. |
| `RecorderEvent.ChunkThenReadError` | recorder/event.c:44-48 | Chunk a, then a read error: the sink holds a, and the three cleanup requests are the last ones issued. |
| `RecorderEvent.ExpiryDuringWrite` | recorder/event.c:23-25 | A write in flight at expiry still lands in full. The instance then cleans up instead of reading again. |
| `TraceWperfEvents.PhaseValuesDistinct` | module/trace_wperf_events.c:5-9 | HARDIRQ, KSOFTIRQ and KERNEL are NR_SOFTIRQS+1, +2 and +3. They are distinct and lie above every softirq number and the idle value. This holds by the constant definitions. |
| `TraceWperfEvents.SoftirqNr` | module/trace_wperf_events.c:132-208 | Each probed softirq action passes a softirq number below NR_SOFTIRQS, never HRTIMER_SOFTIRQ. |
| `TraceWperfEvents.SoftirqNrInjective` | module/trace_wperf_events.c:138-208 | No two probed actions share a softirq number. |
| `TraceWperfEvents.SoftirqSymbol` | module/trace_wperf_events.c:475-486 | Every softirq action's kretprobe is in wperf_krps. |
| `TraceWperfEvents.TruncateToInt` | module/trace_wperf_events.c:13 | The stored begin time is a 32-bit int congruent to the counter modulo 2^32, and equal to it when the counter fits. |
| `TraceWperfEvents.HookSymbol` | module/trace_wperf_events.c:457-486 | Every kretprobe handler sits on a symbol listed in wperf_krps, and every jprobe handler on one listed in wperf_jps. |
| `TraceWperfEvents.OneShotEvent` | module/trace_wperf_events.c:38-455 | Each emitting one-shot hook calls the trace point named after its probed function. `HookSymbol` places that function in wperf_jps.<br>Every such event carries the time stamp except the journal hook's, which carries none.<br>The switch hook passes both task identities. try_to_wake_up passes its task, state and wake_flags. wake_up_new_task passes its task.<br>The two futex hooks pass the constant 1 and lock_sock passes 3, in place of their arguments. The journal hook passes in_serving_softirq() > 0. |
| `TraceWperfEvents.Step` | module/trace_wperf_events.c:90-128 | A handler on CPU c touches only record c.<br>wakeup_softirqd sets KSOFTIRQ. A softirq entry sets its number and a softirq return sets the idle value; neither changes softirq_btime.<br>__do_softirq entry stores the truncated time, and its return emits (1, softirq_btime) and changes nothing.<br>One-shot hooks emit exactly one event, and send and part_round_stats hooks emit nothing. Neither kind changes any record. |
| `TraceWperfEvents.ReplayLeavesOtherCpus` | module/trace_wperf_events.c:16 | A CPU's record is unchanged by any sequence of handlers running on other CPUs. |
| `TraceWperfEvents.PhasesStayReachable` | module/trace_wperf_events.c:90-121 | softirqs_nr only ever holds a probed softirq number, the idle value or KSOFTIRQ. It is never HARDIRQ, KERNEL or HRTIMER_SOFTIRQ. |
| `TraceWperfEvents.BtimeKept` | module/trace_wperf_events.c:245-253 | softirq_btime of a CPU changes only when the __do_softirq entry handler runs on that CPU. |
| `TraceWperfEvents.DoSoftirqReportsBeginTime` | module/trace_wperf_events.c:255-263 | After a __do_softirq entry at ts and any handlers that do not re-enter it on that CPU, the return emits the truncated begin time ts, whatever the return time. |
| `TraceWperfEvents.NestedSoftirqsShareOneSlot` | module/trace_wperf_events.c:100-121 | A nested softirq entry overwrites the outer one's phase. The inner return leaves the CPU idle while the outer softirq still runs. |
| `TraceWperfEvents.WperfCpuData.constructor` | module/trace_wperf_events.c:16 | Static per-CPU records start zeroed, so an untouched CPU reads as HI_SOFTIRQ, not as idle. |
| `TraceWperfEvents.WperfCpuData.OnWakeupSoftirqdEnt` | module/trace_wperf_events.c:90-96 | Updates the array in place exactly as Step does for wakeup_softirqd. |
| `TraceWperfEvents.WperfCpuData.OnSoftirqEnt` | module/trace_wperf_events.c:100-110 | Updates the array in place exactly as Step does for a softirq entry. |
| `TraceWperfEvents.WperfCpuData.OnSoftirqRet` | module/trace_wperf_events.c:112-121 | Updates the array in place exactly as Step does for a softirq return. |
| `TraceWperfEvents.WperfCpuData.OnDoSoftirqEnt` | module/trace_wperf_events.c:245-253 | Updates the array in place exactly as Step does for the __do_softirq entry. |
| `TraceWperfEvents.WperfCpuData.OnDoSoftirqRet` | module/trace_wperf_events.c:255-263 | Returns the event Step emits for the __do_softirq return, read from the array. |
| `TraceWperfEvents.ProbeRegistry.Init` | module/trace_wperf_events.c:488-507 | The kretprobe batch is tried only after the jprobe batch succeeds, and init returns 0 exactly when both succeed.<br>Otherwise it returns the failing batch's code. A kretprobe failure leaves the jprobes registered. |
| `TraceWperfEvents.ProbeRegistry.Exit` | module/trace_wperf_events.c:509-515 | Unregisters wperf_jps and then wperf_krps, whatever is registered. |
| `TraceWperfEvents.ProbeRegistry.InitWithRollback` | module/trace_wperf_events.c:499-504 | The corrected init: same calls and results as Init, but on a kretprobe failure it unregisters the jprobes, so a failing init leaves nothing new registered. |
| `TraceWperfEvents.LoadWithKretprobeFailure` | module/trace_wperf_events.c:499-504 | When only the kretprobes fail, init as written reports the error while every jprobe stays registered. |
| `TraceWperfEvents.LoadWithKretprobeFailureRolledBack` | module/trace_wperf_events.c:499-504 | With the rollback, the same load reports the error and leaves nothing registered. |
| `TraceWperfEvents.LoadThenUnload` | module/trace_wperf_events.c:488-515 | A successful init followed by exit leaves no probe registered. |

## Left out

- The libuv loop, the `uv_fs_*` calls and request bookkeeping (`req`, `loop`, `uv_fs_req_cleanup`) are not modelled: requests are entries of the instance's log and completions are inputs. No I/O is performed.
- Scheduling and fairness between instances are not modelled. Instances are separate objects whose callbacks modify only their own fields and buffer.
- `fprintf` error logging is not modelled; it has no effect on the model's state.
- `setup_event_instances` (recorder/event.c:122-140) is not modelled. It builds directories and paths through helpers from defs.h, and defs.h is not part of this model. `record_events` takes the resulting path lists as inputs.
- The `!event` test in `init_event_ctx` is not modelled, because `record_events` never passes a null context. The buffer leak when only that test fails is therefore not modelled either.
- The assert around `init_event_ctx` is modelled as an abort (`AssertionFailed`). A build with NDEBUG would drop the call altogether, and that build is not modelled.
- A sink file that already exists is overwritten from offset 0 without truncation. The model starts every sink empty.
- `RecorderEvent.StartedSinkIsForwardedChunks`: the sink contents are stated only for runs in which every write completes in full. A short or failed write loses the rest of its chunk (recorder/event.c:18-29), and that case is stated step by step in `WriteStep` only.
- kprobe mechanics are not modelled: `jprobe_return`, `maxactive`, `data_size`, the rollback inside `register_jprobes`/`register_kretprobes`, and symbol lookup. Each batch registers atomically or not at all, with its result code as an input.
- Trace point transport (`trace_*` from trace_wperf_events.h) is not modelled. Events are values holding the trace point's arguments.
- `rdtsc_ordered` and `in_serving_softirq()` are handler inputs.
- Preemption, interrupt re-entrancy and concurrency across CPUs are not modelled. Each handler is one atomic step on a given CPU.
- Kernel pointers are identity-only integers. Arguments that the handlers ignore are carried in `HookCall` but never reach an event. `do_futex` keeps only its first three arguments.

## Findings

| source | as written | input that shows it | evidently intended | confidence | as-written member | corrected member |
|---|---|---|---|---|---|---|
| module/trace_wperf_events.c:499-504 | When `register_kretprobes` fails, init returns its error without unregistering the jprobes registered just before. The module then fails to load while its jprobe handlers stay installed. | `register_jprobes` returns 0 and `register_kretprobes` returns an error, for example because `irq_poll_softirq` is missing from the running kernel. | Unregister `wperf_jps` before returning the kretprobe error, so that a failed init leaves no probe behind. | high; not executed | `TraceWperfEvents.LoadWithKretprobeFailure` | `TraceWperfEvents.ProbeRegistry.InitWithRollback` |
