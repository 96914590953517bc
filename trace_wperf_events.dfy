/**
 * The wPerf kernel module (module/trace_wperf_events.c): the hooks it places
 * on scheduler, softirq, futex, journal and socket functions, the per-CPU
 * record the softirq hooks keep, and the registration of the two probe tables.
 *
 * A handler runs as one atomic step on a given CPU.  The time stamp counter
 * read (rdtsc_ordered) and in_serving_softirq() are inputs.  A trace point
 * call becomes a TraceEvent value holding the trace point's arguments.
 * register_jprobes and register_kretprobes each act as one step that may
 * fail, with the result code as an input.
 */
module TraceWperfEvents {

  datatype Option<T> = None | Some(value: T)

  /** The time stamp counter, as rdtsc_ordered returns it. */
  type u64 = x: int | 0 <= x < 0x1_0000_0000_0000_0000

  const INT_MIN: int := -0x8000_0000
  const INT_MAX: int := 0x7fff_ffff

  /** Number of softirq categories (linux/interrupt.h); also the idle value of softirqs_nr. */
  const NR_SOFTIRQS: int := 10

  // The kernel's softirq numbers, in dispatch priority order.
  const HI_SOFTIRQ: int := 0
  const TIMER_SOFTIRQ: int := 1
  const NET_TX_SOFTIRQ: int := 2
  const NET_RX_SOFTIRQ: int := 3
  const BLOCK_SOFTIRQ: int := 4
  const IRQ_POLL_SOFTIRQ: int := 5
  const TASKLET_SOFTIRQ: int := 6
  const SCHED_SOFTIRQ: int := 7
  const HRTIMER_SOFTIRQ: int := 8
  const RCU_SOFTIRQ: int := 9

  // The module's own phase values, following NR_SOFTIRQS (module/trace_wperf_events.c:5-9).
  const HARDIRQ: int := NR_SOFTIRQS + 1
  const KSOFTIRQ: int := HARDIRQ + 1
  const KERNEL: int := KSOFTIRQ + 1

  /**
   * The phase values are pairwise distinct, and none is a softirq number or the
   * idle value.  This holds by the definitions above; it is stated for readers.
   */
  lemma PhaseValuesDistinct()
    ensures HARDIRQ == NR_SOFTIRQS + 1 && KSOFTIRQ == NR_SOFTIRQS + 2 && KERNEL == NR_SOFTIRQS + 3
    ensures NR_SOFTIRQS < HARDIRQ < KSOFTIRQ < KERNEL
  {
  }

  /** The softirq actions that carry a kretprobe; HRTIMER_SOFTIRQ has none. */
  datatype SoftirqAction =
    | TaskletHiAction | RunTimerSoftirq | NetTxAction | NetRxAction | BlkDoneSoftirq
    | IrqPollSoftirq | TaskletAction | RunRebalanceDomains | RcuProcessCallbacks

  /** The `nr` each DECL_SOFTIRQ_KRP instance passes (module/trace_wperf_events.c:138-208). */
  function SoftirqNr(a: SoftirqAction): (nr: int)
    ensures 0 <= nr < NR_SOFTIRQS && nr != HRTIMER_SOFTIRQ
  {
    match a
    case TaskletHiAction => HI_SOFTIRQ
    case RunTimerSoftirq => TIMER_SOFTIRQ
    case NetTxAction => NET_TX_SOFTIRQ
    case NetRxAction => NET_RX_SOFTIRQ
    case BlkDoneSoftirq => BLOCK_SOFTIRQ
    case IrqPollSoftirq => IRQ_POLL_SOFTIRQ
    case TaskletAction => TASKLET_SOFTIRQ
    case RunRebalanceDomains => SCHED_SOFTIRQ
    case RcuProcessCallbacks => RCU_SOFTIRQ
  }

  /** Each action has a softirq number of its own. */
  lemma SoftirqNrInjective(a: SoftirqAction, b: SoftirqAction)
    requires SoftirqNr(a) == SoftirqNr(b)
    ensures a == b
  {
    match a
    case TaskletHiAction =>
    case RunTimerSoftirq =>
    case NetTxAction =>
    case NetRxAction =>
    case BlkDoneSoftirq =>
    case IrqPollSoftirq =>
    case TaskletAction =>
    case RunRebalanceDomains =>
    case RcuProcessCallbacks =>
  }

  /** The kernel symbol each softirq kretprobe is placed on. */
  function SoftirqSymbol(a: SoftirqAction): (sym: string)
    ensures sym in WPERF_KRPS && sym != "__do_softirq"
  {
    match a
    case TaskletHiAction => "tasklet_hi_action"
    case RunTimerSoftirq => "run_timer_softirq"
    case NetTxAction => "net_tx_action"
    case NetRxAction => "net_rx_action"
    case BlkDoneSoftirq => "blk_done_softirq"
    case IrqPollSoftirq => "irq_poll_softirq"
    case TaskletAction => "tasklet_action"
    case RunRebalanceDomains => "run_rebalance_domains"
    case RcuProcessCallbacks => "rcu_process_callbacks"
  }

  /**
   * The value a C `int` gets when a 64-bit counter is assigned to it: the
   * low 32 bits, read as two's complement (what GCC does).
   */
  function TruncateToInt(t: u64): (r: int)
    ensures INT_MIN <= r <= INT_MAX
    ensures (t - r) % 0x1_0000_0000 == 0
    ensures t <= INT_MAX ==> r == t
  {
    var low := t % 0x1_0000_0000;
    if low <= INT_MAX then low else low - 0x1_0000_0000
  }

  /** A kernel pointer (task, socket, buffer head, ...), used only as an identity. */
  type Ref = int

  /** struct per_cpu_wperf_data. */
  datatype CpuRecord = CpuRecord(softirqsNr: int, softirqBtime: int)

  /** The send functions whose hooks do nothing. */
  datatype SendHook = TcpSendmsg | UdpSendmsg | TcpSendpage | UdpSendpage | SockSendmsg

  /** One invocation of a handler, with the arguments of the probed function. */
  datatype HookCall =
    // jprobe entry handlers
    | SwitchToEnt(prev: Ref, next: Ref)
    | TryToWakeUpEnt(p: Ref, state: int, wakeFlags: int)
    | WakeupSoftirqdEnt
    | PartRoundStatsEnt(cpuArg: int, part: Ref)
    | FutexWaitQueueMeEnt(hb: Ref, q: Ref, timeout: Ref)
    | DoFutexEnt(uaddr: Ref, op: int, val: int)
    | JournalEndBufferIoSyncEnt(bh: Ref, uptodate: int)
    | WakeUpNewTaskEnt(p: Ref)
    | DoExitEnt(code: int)
    | SendEnt(hook: SendHook, sk: Ref, size: int)
    | LockSockEnt(sk: Ref)
    // kretprobe entry and return handlers
    | SoftirqEnt(action: SoftirqAction)
    | SoftirqRet(action: SoftirqAction)
    | DoSoftirqEnt
    | DoSoftirqRet

  /** A trace point call and its arguments. */
  datatype TraceEvent =
    | SwitchToEvent(prev: Ref, next: Ref, ts: u64)
    | TryToWakeUpEvent(p: Ref, state: int, wakeFlags: int, ts: u64)
    | FutexWaitQueueMeEvent(arg: int, ts: u64)
    | DoFutexEvent(arg: int, ts: u64)
    | JournalEndBufferIoSyncEvent(inSoftirq: bool)
    | WakeUpNewTaskEvent(p: Ref, ts: u64)
    | DoExitEvent(ts: u64)
    | LockSockEvent(arg: int, ts: u64)
    | DoSoftirqRetEvent(arg: int, btime: int)

  /** The hooks that only emit a trace point. */
  predicate Emits(call: HookCall)
  {
    call.SwitchToEnt? || call.TryToWakeUpEnt? || call.FutexWaitQueueMeEnt? || call.DoFutexEnt?
    || call.JournalEndBufferIoSyncEnt? || call.WakeUpNewTaskEnt? || call.DoExitEnt? || call.LockSockEnt?
  }

  /** The hooks whose handler does nothing. */
  predicate Silent(call: HookCall)
  {
    call.PartRoundStatsEnt? || call.SendEnt?
  }

  /** The time stamp an event carries, if any. */
  function EventTime(e: TraceEvent): Option<u64>
  {
    match e
    case SwitchToEvent(_, _, ts) => Some(ts)
    case TryToWakeUpEvent(_, _, _, ts) => Some(ts)
    case FutexWaitQueueMeEvent(_, ts) => Some(ts)
    case DoFutexEvent(_, ts) => Some(ts)
    case JournalEndBufferIoSyncEvent(_) => None
    case WakeUpNewTaskEvent(_, ts) => Some(ts)
    case DoExitEvent(ts) => Some(ts)
    case LockSockEvent(_, ts) => Some(ts)
    case DoSoftirqRetEvent(_, _) => None
  }

  /** The task and socket identities an event names. */
  function EventRefs(e: TraceEvent): seq<Ref>
  {
    match e
    case SwitchToEvent(prev, next, _) => [prev, next]
    case TryToWakeUpEvent(p, _, _, _) => [p]
    case WakeUpNewTaskEvent(p, _) => [p]
    case _ => []
  }

  // The symbols wperf_jps probes (module/trace_wperf_events.c:457-473); each one-shot
  // hook's trace point carries the same name.
  const SYM_SWITCH_TO: string := "__switch_to"
  const SYM_TRY_TO_WAKE_UP: string := "try_to_wake_up"
  const SYM_WAKEUP_SOFTIRQD: string := "wakeup_softirqd"
  const SYM_PART_ROUND_STATS: string := "part_round_stats"
  const SYM_FUTEX_WAIT_QUEUE_ME: string := "futex_wait_queue_me"
  const SYM_DO_FUTEX: string := "do_futex"
  const SYM_JOURNAL_END_BUFFER_IO_SYNC: string := "journal_end_buffer_io_sync"
  const SYM_WAKE_UP_NEW_TASK: string := "wake_up_new_task"
  const SYM_DO_EXIT: string := "do_exit"
  const SYM_TCP_SENDMSG: string := "tcp_sendmsg"
  const SYM_UDP_SENDMSG: string := "udp_sendmsg"
  const SYM_TCP_SENDPAGE: string := "tcp_sendpage"
  const SYM_UDP_SENDPAGE: string := "udp_sendpage"
  const SYM_SOCK_SENDMSG: string := "sock_sendmsg"
  const SYM_LOCK_SOCK: string := "__lock_sock"

  /** The trace point an event is reported on, by its name in trace_wperf_events.h. */
  function TracePoint(e: TraceEvent): string
  {
    match e
    case SwitchToEvent(_, _, _) => SYM_SWITCH_TO
    case TryToWakeUpEvent(_, _, _, _) => SYM_TRY_TO_WAKE_UP
    case FutexWaitQueueMeEvent(_, _) => SYM_FUTEX_WAIT_QUEUE_ME
    case DoFutexEvent(_, _) => SYM_DO_FUTEX
    case JournalEndBufferIoSyncEvent(_) => SYM_JOURNAL_END_BUFFER_IO_SYNC
    case WakeUpNewTaskEvent(_, _) => SYM_WAKE_UP_NEW_TASK
    case DoExitEvent(_) => SYM_DO_EXIT
    case LockSockEvent(_, _) => SYM_LOCK_SOCK
    case DoSoftirqRetEvent(_, _) => "__do_softirq_ret"
  }

  /** The leading constant some trace points are given in place of real arguments. */
  function EventArg(e: TraceEvent): Option<int>
  {
    match e
    case FutexWaitQueueMeEvent(arg, _) => Some(arg)
    case DoFutexEvent(arg, _) => Some(arg)
    case LockSockEvent(arg, _) => Some(arg)
    case DoSoftirqRetEvent(arg, _) => Some(arg)
    case _ => None
  }

  /**
   * The kernel symbol a handler's probe sits on, as its DECL_CMN_JRP,
   * DECL_SOFTIRQ_KRP or DECL_CMN_KRP line names it.  jprobe handlers are
   * placed through wperf_jps and kretprobe handlers through wperf_krps.
   */
  function HookSymbol(call: HookCall): (sym: string)
    ensures IsKretprobeHook(call) ==> sym in WPERF_KRPS
    ensures !IsKretprobeHook(call) ==> sym in WPERF_JPS
  {
    match call
    case SwitchToEnt(_, _) => SYM_SWITCH_TO
    case TryToWakeUpEnt(_, _, _) => SYM_TRY_TO_WAKE_UP
    case WakeupSoftirqdEnt => SYM_WAKEUP_SOFTIRQD
    case PartRoundStatsEnt(_, _) => SYM_PART_ROUND_STATS
    case FutexWaitQueueMeEnt(_, _, _) => SYM_FUTEX_WAIT_QUEUE_ME
    case DoFutexEnt(_, _, _) => SYM_DO_FUTEX
    case JournalEndBufferIoSyncEnt(_, _) => SYM_JOURNAL_END_BUFFER_IO_SYNC
    case WakeUpNewTaskEnt(_) => SYM_WAKE_UP_NEW_TASK
    case DoExitEnt(_) => SYM_DO_EXIT
    case SendEnt(hook, _, _) =>
      (match hook
       case TcpSendmsg => SYM_TCP_SENDMSG
       case UdpSendmsg => SYM_UDP_SENDMSG
       case TcpSendpage => SYM_TCP_SENDPAGE
       case UdpSendpage => SYM_UDP_SENDPAGE
       case SockSendmsg => SYM_SOCK_SENDMSG)
    case LockSockEnt(_) => SYM_LOCK_SOCK
    case SoftirqEnt(a) => SoftirqSymbol(a)
    case SoftirqRet(a) => SoftirqSymbol(a)
    case DoSoftirqEnt => "__do_softirq"
    case DoSoftirqRet => "__do_softirq"
  }

  /** The handlers that run as the entry or return handler of a kretprobe. */
  predicate IsKretprobeHook(call: HookCall)
  {
    call.SoftirqEnt? || call.SoftirqRet? || call.DoSoftirqEnt? || call.DoSoftirqRet?
  }

  /**
   * The trace point a one-shot hook calls (module/trace_wperf_events.c:38-455):
   * the one named after the probed function.  The futex and lock_sock hooks
   * pass placeholder constants instead of their arguments, and the journal
   * hook passes no time stamp.
   */
  function OneShotEvent(call: HookCall, ts: u64, servingSoftirq: nat): (e: TraceEvent)
    requires Emits(call)
    ensures TracePoint(e) == HookSymbol(call)
    ensures EventTime(e) == if call.JournalEndBufferIoSyncEnt? then None else Some(ts)
    ensures call.SwitchToEnt? ==> EventRefs(e) == [call.prev, call.next]
    ensures call.TryToWakeUpEnt? || call.WakeUpNewTaskEnt? ==> EventRefs(e) == [call.p]
    ensures call.TryToWakeUpEnt? ==>
              e.TryToWakeUpEvent? && e.state == call.state && e.wakeFlags == call.wakeFlags
    ensures call.LockSockEnt? ==> EventRefs(e) == [] && EventArg(e) == Some(3)
    ensures call.FutexWaitQueueMeEnt? || call.DoFutexEnt? ==> EventRefs(e) == [] && EventArg(e) == Some(1)
    ensures call.JournalEndBufferIoSyncEnt? ==> e == JournalEndBufferIoSyncEvent(servingSoftirq > 0)
  {
    match call
    case SwitchToEnt(prev, next) => SwitchToEvent(prev, next, ts)
    case TryToWakeUpEnt(p, state, wakeFlags) => TryToWakeUpEvent(p, state, wakeFlags, ts)
    case FutexWaitQueueMeEnt(_, _, _) => FutexWaitQueueMeEvent(1, ts)
    case DoFutexEnt(_, _, _) => DoFutexEvent(1, ts)
    case JournalEndBufferIoSyncEnt(_, _) => JournalEndBufferIoSyncEvent(servingSoftirq > 0)
    case WakeUpNewTaskEnt(p) => WakeUpNewTaskEvent(p, ts)
    case DoExitEnt(_) => DoExitEvent(ts)
    case LockSockEnt(_) => LockSockEvent(3, ts)
  }

  /** What a handler leaves behind: the per-CPU records and the event it emitted, if any. */
  datatype Outcome = Outcome(recs: seq<CpuRecord>, event: Option<TraceEvent>)

  /**
   * One handler invocation on CPU `cpu` at time `ts`, with in_serving_softirq()
   * returning `servingSoftirq`.  It touches only record `cpu`.
   */
  function Step(recs: seq<CpuRecord>, cpu: nat, call: HookCall, ts: u64, servingSoftirq: nat): (r: Outcome)
    requires cpu < |recs|
    ensures |r.recs| == |recs|
    ensures forall c :: 0 <= c < |recs| && c != cpu ==> r.recs[c] == recs[c]
    ensures r.event.Some? <==> Emits(call) || call.DoSoftirqRet?
    // one-shot hooks emit exactly one event; silent hooks nothing; neither touches a record
    ensures Emits(call) ==> r.recs == recs && r.event == Some(OneShotEvent(call, ts, servingSoftirq))
    ensures Silent(call) ==> r.recs == recs
    // the phase-marking handlers set softirqs_nr and leave softirq_btime alone
    ensures call.WakeupSoftirqdEnt? ==> r.recs[cpu] == CpuRecord(KSOFTIRQ, recs[cpu].softirqBtime)
    ensures call.SoftirqEnt? ==> r.recs[cpu] == CpuRecord(SoftirqNr(call.action), recs[cpu].softirqBtime)
    ensures call.SoftirqRet? ==> r.recs[cpu] == CpuRecord(NR_SOFTIRQS, recs[cpu].softirqBtime)
    // __do_softirq keeps its begin time and reports the begin time, not a duration
    ensures call.DoSoftirqEnt? ==> r.recs[cpu] == CpuRecord(recs[cpu].softirqsNr, TruncateToInt(ts))
    ensures call.DoSoftirqRet? ==>
              r.recs == recs && r.event == Some(DoSoftirqRetEvent(1, recs[cpu].softirqBtime))
  {
    match call
    case WakeupSoftirqdEnt => Outcome(recs[cpu := recs[cpu].(softirqsNr := KSOFTIRQ)], None)
    case SoftirqEnt(a) => Outcome(recs[cpu := recs[cpu].(softirqsNr := SoftirqNr(a))], None)
    case SoftirqRet(_) => Outcome(recs[cpu := recs[cpu].(softirqsNr := NR_SOFTIRQS)], None)
    case DoSoftirqEnt => Outcome(recs[cpu := recs[cpu].(softirqBtime := TruncateToInt(ts))], None)
    case DoSoftirqRet => Outcome(recs, Some(DoSoftirqRetEvent(1, recs[cpu].softirqBtime)))
    case PartRoundStatsEnt(_, _) => Outcome(recs, None)
    case SendEnt(_, _, _) => Outcome(recs, None)
    case _ => Outcome(recs, Some(OneShotEvent(call, ts, servingSoftirq)))
  }

  // ---------------------------------------------------------------------
  // Sequences of handler invocations

  /** One handler invocation together with where and when it ran. */
  datatype Hit = Hit(cpu: nat, call: HookCall, ts: u64, servingSoftirq: nat)

  predicate OnCpus(hits: seq<Hit>, n: nat)
  {
    forall k :: 0 <= k < |hits| ==> hits[k].cpu < n
  }

  /** The per-CPU records after the invocations `hits`, one after another. */
  function Replay(recs: seq<CpuRecord>, hits: seq<Hit>): (r: seq<CpuRecord>)
    requires OnCpus(hits, |recs|)
    ensures |r| == |recs|
    decreases |hits|
  {
    if hits == [] then recs
    else Replay(Step(recs, hits[0].cpu, hits[0].call, hits[0].ts, hits[0].servingSoftirq).recs, hits[1..])
  }

  /** A record no invocation ran on stays as it was. */
  lemma {:induction false} ReplayLeavesOtherCpus(recs: seq<CpuRecord>, hits: seq<Hit>, c: nat)
    requires OnCpus(hits, |recs|) && c < |recs|
    requires forall k :: 0 <= k < |hits| ==> hits[k].cpu != c
    ensures Replay(recs, hits)[c] == recs[c]
    decreases |hits|
  {
    if hits != [] {
      var next := Step(recs, hits[0].cpu, hits[0].call, hits[0].ts, hits[0].servingSoftirq).recs;
      ReplayLeavesOtherCpus(next, hits[1..], c);
    }
  }

  /** The values softirqs_nr can hold: a probed softirq number, idle, or KSOFTIRQ. */
  predicate ReachablePhase(v: int)
  {
    (0 <= v < NR_SOFTIRQS && v != HRTIMER_SOFTIRQ) || v == NR_SOFTIRQS || v == KSOFTIRQ
  }

  /** No handler ever sets HARDIRQ or KERNEL, or HRTIMER_SOFTIRQ. */
  lemma {:induction false} PhasesStayReachable(recs: seq<CpuRecord>, hits: seq<Hit>)
    requires OnCpus(hits, |recs|)
    requires forall c :: 0 <= c < |recs| ==> ReachablePhase(recs[c].softirqsNr)
    ensures forall c :: 0 <= c < |Replay(recs, hits)| ==> ReachablePhase(Replay(recs, hits)[c].softirqsNr)
    decreases |hits|
  {
    if hits != [] {
      var next := Step(recs, hits[0].cpu, hits[0].call, hits[0].ts, hits[0].servingSoftirq).recs;
      PhasesStayReachable(next, hits[1..]);
    }
  }

  /** softirq_btime changes only through the __do_softirq entry handler on the same CPU. */
  lemma {:induction false} BtimeKept(recs: seq<CpuRecord>, hits: seq<Hit>, c: nat)
    requires OnCpus(hits, |recs|) && c < |recs|
    requires forall k :: 0 <= k < |hits| && hits[k].cpu == c ==> !hits[k].call.DoSoftirqEnt?
    ensures Replay(recs, hits)[c].softirqBtime == recs[c].softirqBtime
    decreases |hits|
  {
    if hits != [] {
      var next := Step(recs, hits[0].cpu, hits[0].call, hits[0].ts, hits[0].servingSoftirq).recs;
      BtimeKept(next, hits[1..], c);
    }
  }

  /**
   * __do_softirq entered at `ts`, any handlers that do not enter __do_softirq
   * again on this CPU, then its return: the event carries the truncated begin
   * time, whatever the return time.
   */
  lemma DoSoftirqReportsBeginTime(recs: seq<CpuRecord>, c: nat, ts: u64, begun: seq<CpuRecord>,
                                  hits: seq<Hit>, tsRet: u64)
    requires c < |recs| && begun == Step(recs, c, DoSoftirqEnt, ts, 0).recs && OnCpus(hits, |recs|)
    requires forall k :: 0 <= k < |hits| && hits[k].cpu == c ==> !hits[k].call.DoSoftirqEnt?
    ensures Step(Replay(begun, hits), c, DoSoftirqRet, tsRet, 0).event
              == Some(DoSoftirqRetEvent(1, TruncateToInt(ts)))
  {
    BtimeKept(begun, hits, c);
  }

  /**
   * The record has a single phase slot: a softirq entered inside another
   * overwrites it, and the inner return leaves the CPU idle although the outer
   * one is still running.
   */
  lemma NestedSoftirqsShareOneSlot(recs: seq<CpuRecord>, c: nat, outer: SoftirqAction, inner: SoftirqAction)
    requires c < |recs|
    ensures var r1 := Step(recs, c, SoftirqEnt(outer), 0, 0).recs;
            var r2 := Step(r1, c, SoftirqEnt(inner), 0, 0).recs;
            var r3 := Step(r2, c, SoftirqRet(inner), 0, 0).recs;
            r1[c].softirqsNr == SoftirqNr(outer) && r2[c].softirqsNr == SoftirqNr(inner)
            && r3[c].softirqsNr == NR_SOFTIRQS && r3[c].softirqBtime == recs[c].softirqBtime
  {
  }

  // ---------------------------------------------------------------------
  // The per-CPU store, updated in place

  /** DEFINE_PER_CPU(struct per_cpu_wperf_data, wperf_cpu_data): one record per CPU. */
  class WperfCpuData {
    const recs: array<CpuRecord>

    /** Static per-CPU data starts zeroed, so an untouched CPU reads as HI_SOFTIRQ rather than idle. */
    constructor (nrCpus: nat)
      ensures fresh(recs) && recs.Length == nrCpus
      ensures forall c :: 0 <= c < nrCpus ==> recs[c] == CpuRecord(HI_SOFTIRQ, 0)
    {
      recs := new CpuRecord[nrCpus](_ => CpuRecord(0, 0));
    }

    method OnWakeupSoftirqdEnt(cpu: nat)
      requires cpu < recs.Length
      modifies recs
      ensures recs[..] == Step(old(recs[..]), cpu, WakeupSoftirqdEnt, 0, 0).recs
    {
      recs[cpu] := recs[cpu].(softirqsNr := KSOFTIRQ);
    }

    /** The entry handler of DECL_SOFTIRQ_KRP(nr, fn). */
    method OnSoftirqEnt(cpu: nat, action: SoftirqAction)
      requires cpu < recs.Length
      modifies recs
      ensures recs[..] == Step(old(recs[..]), cpu, SoftirqEnt(action), 0, 0).recs
    {
      recs[cpu] := recs[cpu].(softirqsNr := SoftirqNr(action));
    }

    /** The return handler of DECL_SOFTIRQ_KRP(nr, fn). */
    method OnSoftirqRet(cpu: nat, action: SoftirqAction)
      requires cpu < recs.Length
      modifies recs
      ensures recs[..] == Step(old(recs[..]), cpu, SoftirqRet(action), 0, 0).recs
    {
      recs[cpu] := recs[cpu].(softirqsNr := NR_SOFTIRQS);
    }

    method OnDoSoftirqEnt(cpu: nat, ts: u64)
      requires cpu < recs.Length
      modifies recs
      ensures recs[..] == Step(old(recs[..]), cpu, DoSoftirqEnt, ts, 0).recs
    {
      recs[cpu] := recs[cpu].(softirqBtime := TruncateToInt(ts));
    }

    method OnDoSoftirqRet(cpu: nat) returns (event: TraceEvent)
      requires cpu < recs.Length
      ensures Step(recs[..], cpu, DoSoftirqRet, 0, 0).event == Some(event)
    {
      event := DoSoftirqRetEvent(1, recs[cpu].softirqBtime);
    }
  }

  // ---------------------------------------------------------------------
  // Registration

  /** wperf_jps, in order. */
  const WPERF_JPS: seq<string> := [
    SYM_SWITCH_TO, SYM_TRY_TO_WAKE_UP, SYM_WAKEUP_SOFTIRQD, SYM_PART_ROUND_STATS,
    SYM_FUTEX_WAIT_QUEUE_ME, SYM_DO_FUTEX, SYM_JOURNAL_END_BUFFER_IO_SYNC, SYM_WAKE_UP_NEW_TASK,
    SYM_DO_EXIT, SYM_TCP_SENDMSG, SYM_UDP_SENDMSG, SYM_TCP_SENDPAGE, SYM_UDP_SENDPAGE,
    SYM_SOCK_SENDMSG, SYM_LOCK_SOCK]

  /** wperf_krps, in order. */
  const WPERF_KRPS: seq<string> := [
    "tasklet_hi_action", "run_timer_softirq", "net_tx_action", "net_rx_action",
    "blk_done_softirq", "irq_poll_softirq", "tasklet_action", "run_rebalance_domains",
    "rcu_process_callbacks", "__do_softirq"]

  function Symbols(table: seq<string>): set<string>
  {
    set sym | sym in table
  }

  /** A call into the kprobe layer, with the table it is given. */
  datatype RegCall =
    | RegisterJprobes(table: seq<string>)
    | RegisterKretprobes(table: seq<string>)
    | UnregisterJprobes(table: seq<string>)
    | UnregisterKretprobes(table: seq<string>)

  /** The probes the kernel has registered for the module, and the calls made so far. */
  class ProbeRegistry {
    var registered: set<string>
    var calls: seq<RegCall>

    constructor ()
      ensures registered == {} && calls == []
    {
      registered := {};
      calls := [];
    }

    /**
     * trace_wperf_events_init; `jprobesRet` and `kretprobesRet` are what
     * register_jprobes and register_kretprobes return.  The kretprobes are
     * tried only after the jprobes succeed, and a kretprobe failure leaves
     * the jprobes registered.
     */
    method Init(jprobesRet: int, kretprobesRet: int) returns (ret: int)
      modifies this
      ensures ret == 0 <==> jprobesRet == 0 && kretprobesRet == 0
      ensures ret == if jprobesRet != 0 then jprobesRet else kretprobesRet
      ensures calls == old(calls) + [RegisterJprobes(WPERF_JPS)]
                       + (if jprobesRet == 0 then [RegisterKretprobes(WPERF_KRPS)] else [])
      ensures jprobesRet != 0 ==> registered == old(registered)
      ensures jprobesRet == 0 && kretprobesRet != 0 ==> registered == old(registered) + Symbols(WPERF_JPS)
      ensures ret == 0 ==> registered == old(registered) + Symbols(WPERF_JPS) + Symbols(WPERF_KRPS)
    {
      calls := calls + [RegisterJprobes(WPERF_JPS)];
      ret := jprobesRet;
      if ret != 0 {
        return;
      }
      registered := registered + Symbols(WPERF_JPS);
      calls := calls + [RegisterKretprobes(WPERF_KRPS)];
      ret := kretprobesRet;
      if ret != 0 {
        return;
      }
      registered := registered + Symbols(WPERF_KRPS);
    }

    /** trace_wperf_events_exit: both tables are unregistered, whatever is registered. */
    method Exit()
      modifies this
      ensures calls == old(calls) + [UnregisterJprobes(WPERF_JPS), UnregisterKretprobes(WPERF_KRPS)]
      ensures registered == old(registered) - Symbols(WPERF_JPS) - Symbols(WPERF_KRPS)
    {
      calls := calls + [UnregisterJprobes(WPERF_JPS)];
      registered := registered - Symbols(WPERF_JPS);
      calls := calls + [UnregisterKretprobes(WPERF_KRPS)];
      registered := registered - Symbols(WPERF_KRPS);
    }

    /** Init as it should be: a kretprobe failure unregisters the jprobes before returning. */
    method InitWithRollback(jprobesRet: int, kretprobesRet: int) returns (ret: int)
      modifies this
      ensures ret == 0 <==> jprobesRet == 0 && kretprobesRet == 0
      ensures ret == if jprobesRet != 0 then jprobesRet else kretprobesRet
      ensures calls == old(calls) + [RegisterJprobes(WPERF_JPS)]
                       + (if jprobesRet != 0 then []
                          else if kretprobesRet == 0 then [RegisterKretprobes(WPERF_KRPS)]
                          else [RegisterKretprobes(WPERF_KRPS), UnregisterJprobes(WPERF_JPS)])
      ensures ret != 0 ==> registered == old(registered) - (if jprobesRet == 0 then Symbols(WPERF_JPS) else {})
      ensures ret == 0 ==> registered == old(registered) + Symbols(WPERF_JPS) + Symbols(WPERF_KRPS)
    {
      calls := calls + [RegisterJprobes(WPERF_JPS)];
      ret := jprobesRet;
      if ret != 0 {
        return;
      }
      registered := registered + Symbols(WPERF_JPS);
      calls := calls + [RegisterKretprobes(WPERF_KRPS)];
      ret := kretprobesRet;
      if ret != 0 {
        calls := calls + [UnregisterJprobes(WPERF_JPS)];
        registered := registered - Symbols(WPERF_JPS);
        return;
      }
      registered := registered + Symbols(WPERF_KRPS);
    }
  }

  /** Loading the module when only the kretprobes fail: init reports failure and every jprobe stays registered. */
  method LoadWithKretprobeFailure(err: int) returns (ret: int, left: set<string>)
    requires err != 0
    ensures ret == err && left == Symbols(WPERF_JPS)
  {
    var registry := new ProbeRegistry();
    ret := registry.Init(0, err);
    left := registry.registered;
  }

  /** The same load with the rollback: init reports failure and nothing stays registered. */
  method LoadWithKretprobeFailureRolledBack(err: int) returns (ret: int, left: set<string>)
    requires err != 0
    ensures ret == err && left == {}
  {
    var registry := new ProbeRegistry();
    ret := registry.InitWithRollback(0, err);
    left := registry.registered;
  }

  /** A successful load followed by an unload leaves nothing registered. */
  method LoadThenUnload() returns (ret: int, left: set<string>)
    ensures ret == 0 && left == {}
  {
    var registry := new ProbeRegistry();
    ret := registry.Init(0, 0);
    registry.Exit();
    left := registry.registered;
  }
}
