// The concurrent dispatch protocol of core/execution/manager.go as a step relation.
//
// One action is one critical section or one channel operation of one goroutine; actions of
// submitters, cancellers, the dispatcher, running executions, notifiers and waiters interleave
// freely. What is not shared between goroutines (requests, contexts, telemetry, event
// publishing) has no action.

module Engine {
  import opened Option
  import opened Collections
  import opened Executions
  import opened Scheduler

  // Capacities fixed at construction: the semaphore, the queue bound checked by Submit, the
  // wake-up channel, and the per-provider limits.
  datatype Config = Config(slots: nat, queueSize: nat, signalBuffer: nat, limits: map<string, int>)

  predicate ValidConfig(c: Config) { c.slots > 0 && c.signalBuffer > 0 }

  function NewConfig(globalLimit: int, queueSize: int): (c: Config)
    ensures ValidConfig(c)
  {
    Config(if globalLimit <= 0 then 1000 else globalLimit, if queueSize < 0 then 0 else queueSize, 1000,
           map["openai-primary" := 500, "anthropic-primary" := 500])
  }

  // ---------------------------------------------------------------- state

  // A goroutine running one execution. Finished means the result is written; the last two
  // phases lie inside releaseSlots, before its wake-up is sent.
  datatype Phase = Starting | Working | Backoff | Finished | SlotFree | ProviderFree

  // Where an execution is: inside Submit, before or after QUEUED is written; in the scheduler;
  // dequeued and held by the dispatcher; in its own goroutine; taken out by Cancel; released.
  datatype Place = Submitting(marked: bool) | InQueue | Held | InRun(phase: Phase) | Removed | Done

  // An entry of the executions map, joined with the waiters registered under its ID. state and
  // hasResult are Execution.State and Result != nil; releases counts releaseSlots calls.
  datatype Entry = Entry(job: Job, place: Place, state: ExecState, hasResult: bool, releases: nat, waiting: seq<nat>)

  // The single scheduler goroutine: waiting in its select; at the semaphore check; inside
  // Dequeue at position pos of the class of rank cls of the paid or the free sweep (holding
  // the scheduler lock); with a dequeued job before and after the semaphore send; gone.
  datatype Dispatcher =
    | Parked | Checking | Scanning(paid: bool, cls: nat, pos: nat) | Holding(job: Job) | Acquired(job: Job) | Stopped

  // A goroutine inside notifyWaiters, before and after it has taken the list.
  datatype Notifier = Summoned(id: string) | Closing(id: string, todo: seq<nat>)

  // A waiter's channel: state checked but not registered; in the waiters map; taken by a notifier; closed.
  datatype ChannelAt = Checked | Listed | Claimed(n: nat) | Closed

  // The channel of one Wait call for execution id; closes counts close(ch) calls.
  datatype Waiter = Waiter(id: string, at: ChannelAt, closes: nat)

  datatype Waits = Waits(notifiers: map<nat, Notifier>, channels: map<nat, Waiter>)

  // entered holds the submitters between Enqueue and their wake-up.
  datatype System = System(
    sched: State, entries: map<string, Entry>, entered: set<string>, pc: Dispatcher,
    signals: nat, semUsed: int, active: map<string, int>, waits: Waits)

  const INIT: System := System(EMPTY, map[], {}, Parked, 0, 0, map[], Waits(map[], map[]))

  function Load(m: map<string, int>, k: string): int { if k in m then m[k] else 0 }

  // canSchedule's refusal: the provider has a limit and has reached it.
  predicate Blocked(c: Config, active: map<string, int>, j: Job) {
    j.provider != "" && j.provider in c.limits && Load(active, j.provider) >= c.limits[j.provider]
  }

  // ---------------------------------------------------------------- actions

  datatype Action =
    | Admit(job: Job) | Mark(id: string) | Enter(id: string) | SignalSubmit(id: string)
    | Cancel(id: string, n: nat)
    | Receive | CheckSlots | ScanStep | Acquire | Launch | Stop
    | Start(id: string) | Retry(id: string) | Resume(id: string) | Finish(id: string, final: ExecState)
    | FreeSlot(id: string) | FreeProvider(id: string) | SignalDone(id: string, n: nat)
    | Claim(n: nat) | CloseNext(n: nat) | Dismiss(n: nat)
    | CheckState(ch: nat, id: string) | Register(ch: nat)

  // The goroutine kind an action belongs to.
  predicate ByCaller(a: Action) { a.Admit? || a.Mark? || a.Enter? || a.SignalSubmit? || a.Cancel? }
  predicate ByDispatcher(a: Action) { a.Receive? || a.CheckSlots? || a.ScanStep? || a.Acquire? || a.Launch? || a.Stop? }
  predicate ByRunner(a: Action) {
    a.Start? || a.Retry? || a.Resume? || a.Finish? || a.FreeSlot? || a.FreeProvider? || a.SignalDone?
  }
  predicate ByWaiter(a: Action) { a.Claim? || a.CloseNext? || a.Dismiss? || a.CheckState? || a.Register? }

  predicate Cancellable(st: ExecState) { st.Pending? || st.Queued? || st.Retrying? }

  predicate IsAt(s: System, id: string, p: Place) { id in s.entries && s.entries[id].place == p }

  // Semaphore operations are enabled only when they do not block, and everything that needs
  // the scheduler lock only when the dispatcher is not scanning.
  ghost predicate Enabled(c: Config, s: System, a: Action) {
    match a
    case Admit(j) => j.id !in s.entries && j.provider != "" && !s.pc.Scanning? && s.sched.Depth() < c.queueSize
    case Mark(id) => IsAt(s, id, Submitting(false))
    case Enter(id) => IsAt(s, id, Submitting(true)) && !s.pc.Scanning?
    case SignalSubmit(id) => id in s.entered
    case Cancel(id, n) =>
      id in s.entries && Cancellable(s.entries[id].state) && n !in s.waits.notifiers && !s.pc.Scanning?
    case Receive => s.pc == Parked && s.signals > 0
    case CheckSlots => s.pc == Checking
    case ScanStep => ScanReady(s)
    case Acquire => s.pc.Holding? && s.semUsed < c.slots
    case Launch => s.pc.Acquired? && s.pc.job.id in s.entries
    case Stop => s.pc == Parked
    case Start(id) => IsAt(s, id, InRun(Starting))
    case Retry(id) => IsAt(s, id, InRun(Working))
    case Resume(id) => IsAt(s, id, InRun(Backoff))
    case Finish(id, st) =>
      st != NoState && (IsAt(s, id, InRun(Working)) || IsAt(s, id, InRun(Backoff))
        || (IsAt(s, id, InRun(Finished)) && st == Failed))
    case FreeSlot(id) => IsAt(s, id, InRun(Finished)) && s.semUsed > 0
    case FreeProvider(id) => IsAt(s, id, InRun(SlotFree))
    case SignalDone(id, n) => IsAt(s, id, InRun(ProviderFree)) && n !in s.waits.notifiers
    case Claim(n) => n in s.waits.notifiers && s.waits.notifiers[n].Summoned? && s.waits.notifiers[n].id in s.entries
    case CloseNext(n) =>
      n in s.waits.notifiers && s.waits.notifiers[n].Closing? && s.waits.notifiers[n].todo != []
      && s.waits.notifiers[n].todo[0] in s.waits.channels
    case Dismiss(n) => n in s.waits.notifiers && s.waits.notifiers[n].Closing? && s.waits.notifiers[n].todo == []
    case CheckState(ch, id) => ch !in s.waits.channels && id in s.entries && !Terminal(s.entries[id].state)
    case Register(ch) =>
      ch in s.waits.channels && s.waits.channels[ch].at == Checked && s.waits.channels[ch].id in s.entries
  }

  // The non-blocking send of a wake-up: it is dropped when the buffer is full.
  function Bump(c: Config, signals: nat): nat {
    if signals < c.signalBuffer then signals + 1 else signals
  }

  // The scan has nothing (more) to look at in the class it stands at.
  predicate ClassEnded(s: System)
    requires s.pc.Scanning? && s.pc.cls < CLASSES
  {
    (s.pc.paid && s.sched.Credit(ClassAt(s.pc.cls)) <= 0) || s.pc.pos >= |s.sched.Queue(ClassAt(s.pc.cls))|
  }

  // The job the scan stands at is a known execution (an invariant of the protocol).
  predicate ScanReady(s: System) {
    s.pc.Scanning? && s.pc.cls <= CLASSES
    && (s.pc.cls < CLASSES && !ClassEnded(s) ==> s.sched.Queue(ClassAt(s.pc.cls))[s.pc.pos].id in s.entries)
  }

  // canSchedule refuses the job the scan stands at.
  predicate Refuses(c: Config, s: System)
    requires s.pc.Scanning? && s.pc.cls < CLASSES && !ClassEnded(s)
  {
    Blocked(c, s.active, s.sched.Queue(ClassAt(s.pc.cls))[s.pc.pos])
  }

  // One iteration inside Dequeue, with canSchedule evaluated on the provider counts of this moment.
  ghost function NextScan(c: Config, s: System): System
    requires ScanReady(s)
  {
    var Scanning(paid, k, i) := s.pc;
    if k == CLASSES then
      if paid && !s.sched.AllEmpty() then s.(sched := Refilled(s.sched), pc := Scanning(false, 0, 0))
      else s.(pc := Parked)
    else if ClassEnded(s) then s.(pc := Scanning(paid, k + 1, 0))
    else
      var j := s.sched.Queue(ClassAt(k))[i];
      if Refuses(c, s) then s.(pc := Scanning(paid, k, i + 1))
      else s.(sched := TakeAt(s.sched, ClassAt(k), i), pc := Holding(j), entries := Moved(s.entries, j.id, Held))
  }

  function Moved(entries: map<string, Entry>, id: string, to: Place): map<string, Entry>
    requires id in entries
  {
    entries[id := entries[id].(place := to)]
  }

  function SetState(entries: map<string, Entry>, id: string, to: Place, st: ExecState): map<string, Entry>
    requires id in entries
  {
    entries[id := entries[id].(place := to, state := st)]
  }

  function Summon(w: Waits, n: nat, id: string): Waits { w.(notifiers := w.notifiers[n := Summoned(id)]) }

  // Submit and Cancel.
  ghost function NextCaller(c: Config, s: System, a: Action): System
    requires Enabled(c, s, a)
    requires ByCaller(a)
  {
    match a
    case Admit(j) => s.(entries := s.entries[j.id := Entry(j, Submitting(false), Pending, false, 0, [])])
    case Mark(id) => s.(entries := SetState(s.entries, id, Submitting(true), Queued))
    case Enter(id) =>
      s.(sched := Enqueued(s.sched, s.entries[id].job),
         entries := Moved(s.entries, id, InQueue),
         entered := s.entered + {id})
    case SignalSubmit(id) => s.(signals := Bump(c, s.signals), entered := s.entered - {id})
    case Cancel(id, n) =>
      var e := s.entries[id];
      s.(sched := RemovedIn(s.sched, ClassOf(e.job), id),
         entries := s.entries[id := e.(place := if e.place == InQueue then Removed else e.place,
                                       state := Cancelled, hasResult := true)],
         waits := Summon(s.waits, n, id))
  }

  // The dispatcher.
  ghost function NextDispatch(c: Config, s: System, a: Action): System
    requires Enabled(c, s, a)
    requires ByDispatcher(a)
  {
    match a
    case Receive => s.(signals := s.signals - 1, pc := Checking)
    case CheckSlots => s.(pc := if s.semUsed >= c.slots then Parked else Scanning(true, 0, 0))
    case ScanStep => NextScan(c, s)
    case Acquire => s.(semUsed := s.semUsed + 1, pc := Acquired(s.pc.job))
    case Launch =>
      var p := s.pc.job.provider;
      s.(active := if p != "" then s.active[p := Load(s.active, p) + 1] else s.active,
         entries := Moved(s.entries, s.pc.job.id, InRun(Starting)), pc := Checking)
    case Stop => s.(pc := Stopped)
  }

  // The goroutine of a running execution. Finish is any write of the final state and result: a
  // failed resolve, handleResult (whose state a provider may choose), a stream end, or the
  // recovery block, which alone may overwrite a result already written, with FAILED.
  ghost function NextRun(c: Config, s: System, a: Action): System
    requires Enabled(c, s, a)
    requires ByRunner(a)
  {
    var id := a.id;
    var e := s.entries[id];
    match a
    case Start(_) => s.(entries := SetState(s.entries, id, InRun(Working), Running))
    case Retry(_) => s.(entries := SetState(s.entries, id, InRun(Backoff), Retrying))
    case Resume(_) => s.(entries := SetState(s.entries, id, InRun(Working), Running))
    case Finish(_, st) => s.(entries := s.entries[id := e.(place := InRun(Finished), state := st, hasResult := true)])
    case FreeSlot(_) =>
      s.(semUsed := s.semUsed - 1, entries := s.entries[id := e.(place := InRun(SlotFree), releases := e.releases + 1)])
    case FreeProvider(_) =>
      var p := e.job.provider;
      s.(active := if p != "" then s.active[p := Load(s.active, p) - 1] else s.active,
         entries := Moved(s.entries, id, InRun(ProviderFree)))
    case SignalDone(_, n) =>
      s.(entries := Moved(s.entries, id, Done), signals := Bump(c, s.signals), waits := Summon(s.waits, n, id))
  }

  function Reclaimed(channels: map<nat, Waiter>, list: seq<nat>, n: nat): map<nat, Waiter> {
    map ch | ch in channels :: if ch in list then channels[ch].(at := Claimed(n)) else channels[ch]
  }

  // notifyWaiters and Wait.
  ghost function NextWait(c: Config, s: System, a: Action): System
    requires Enabled(c, s, a)
    requires ByWaiter(a)
  {
    var w := s.waits;
    match a
    case Claim(n) =>
      var id := w.notifiers[n].id;
      var list := s.entries[id].waiting;
      s.(entries := s.entries[id := s.entries[id].(waiting := [])],
         waits := Waits(w.notifiers[n := Closing(id, list)], Reclaimed(w.channels, list, n)))
    case CloseNext(n) =>
      var Closing(id, todo) := w.notifiers[n];
      var ch := w.channels[todo[0]];
      s.(waits := Waits(w.notifiers[n := Closing(id, todo[1..])],
                        w.channels[todo[0] := ch.(at := Closed, closes := ch.closes + 1)]))
    case Dismiss(n) => s.(waits := w.(notifiers := w.notifiers - {n}))
    case CheckState(ch, id) => s.(waits := w.(channels := w.channels[ch := Waiter(id, Checked, 0)]))
    case Register(ch) =>
      var id := w.channels[ch].id;
      s.(entries := s.entries[id := s.entries[id].(waiting := s.entries[id].waiting + [ch])],
         waits := w.(channels := w.channels[ch := w.channels[ch].(at := Listed)]))
  }

  ghost function Next(c: Config, s: System, a: Action): System
    requires Enabled(c, s, a)
  {
    if ByCaller(a) then NextCaller(c, s, a)
    else if ByDispatcher(a) then NextDispatch(c, s, a)
    else if ByWaiter(a) then NextWait(c, s, a)
    else NextRun(c, s, a)
  }

  // ---------------------------------------------------------------- runs

  // An action that is not enabled leaves the state alone, so every action sequence is a run.
  ghost function Step(c: Config, s: System, a: Action): System {
    if Enabled(c, s, a) then Next(c, s, a) else s
  }

  ghost function Run(c: Config, s: System, acts: seq<Action>): System
    decreases |acts|
  {
    if |acts| == 0 then s else Run(c, Step(c, s, acts[0]), acts[1..])
  }

  // t is a continuation of s.
  ghost predicate Leads(c: Config, s: System, t: System) { exists acts :: Run(c, s, acts) == t }

  ghost predicate Reachable(c: Config, s: System) { ValidConfig(c) && Leads(c, INIT, s) }

  lemma {:induction false} RunAppend(c: Config, s: System, a: seq<Action>, b: seq<Action>)
    ensures Run(c, s, a + b) == Run(c, Run(c, s, a), b)
    decreases |a|
  {
    if |a| == 0 {
      assert a + b == b;
    } else {
      assert (a + b)[0] == a[0] && (a + b)[1..] == a[1..] + b;
      RunAppend(c, Step(c, s, a[0]), a[1..], b);
    }
  }

  lemma LeadsStep(c: Config, s: System, t: System, a: Action)
    requires Leads(c, s, t)
    ensures Leads(c, s, Step(c, t, a))
  {
    var acts :| Run(c, s, acts) == t;
    RunAppend(c, s, acts, [a]);
    assert Run(c, t, [a]) == Step(c, t, a) by { assert [a][1..] == []; }
    assert Run(c, s, acts + [a]) == Step(c, t, a);
  }

  lemma LeadsRefl(c: Config, s: System)
    ensures Leads(c, s, s)
  {
    assert Run(c, s, []) == s;
  }

  lemma ReachStep(c: Config, s: System, a: Action)
    requires Reachable(c, s)
    ensures Reachable(c, Step(c, s, a))
  {
    LeadsStep(c, INIT, s, a);
  }

  // ---------------------------------------------------------------- the scan is Dequeue

  // The answer of the scan from a position on, when the provider counts do not change.
  ghost function Scan(s: State, ok: Filter, paid: bool, k: nat, i: nat): Taken
    requires k <= CLASSES
    decreases paid, CLASSES - k, if k < CLASSES && i < |s.Queue(ClassAt(k))| then |s.Queue(ClassAt(k))| - i else 0
  {
    if k == CLASSES then
      if paid && !s.AllEmpty() then Scan(Refilled(s), ok, false, k - CLASSES, 0) else Taken(None, s)
    else if (paid && s.Credit(ClassAt(k)) <= 0) || i >= |s.Queue(ClassAt(k))| then Scan(s, ok, paid, k + 1, 0)
    else if !ok(s.Queue(ClassAt(k))[i]) then Scan(s, ok, paid, k, i + 1)
    else Taken(Some(s.Queue(ClassAt(k))[i]), TakeAt(s, ClassAt(k), i))
  }

  lemma {:induction false} ScanIsSweep(s: State, ok: Filter, paid: bool, k: nat, i: nat)
    requires k <= CLASSES
    requires k < CLASSES ==> i <= FirstEligible(s.Queue(ClassAt(k)), ok)
    ensures var r := Sweep(s, k, paid, ok);
      Scan(s, ok, paid, k, i) ==
        if r.job.Some? then r
        else if paid && !s.AllEmpty() then Scan(Refilled(s), ok, false, 0, 0)
        else Taken(None, s)
    decreases CLASSES - k, if k < CLASSES && i < |s.Queue(ClassAt(k))| then |s.Queue(ClassAt(k))| - i else 0
  {
    if k < CLASSES {
      var q := s.Queue(ClassAt(k));
      if (paid && s.Credit(ClassAt(k)) <= 0) || i >= |q| {
        ScanIsSweep(s, ok, paid, k + 1, 0);
      } else if !ok(q[i]) {
        ScanIsSweep(s, ok, paid, k, i + 1);
      }
    }
  }

  // Under unchanging provider counts the position-by-position scan is the scheduler's Dequeue.
  lemma ScanIsDequeue(s: State, ok: Filter)
    ensures Scan(s, ok, true, 0, 0) == Dequeued(s, ok)
  {
    ScanIsSweep(s, ok, true, 0, 0);
    ScanIsSweep(Refilled(s), ok, false, 0, 0);
  }

  ghost predicate Answers(t: System, ok: Filter, r: Taken) {
    match t.pc
    case Scanning(paid, k, i) => k <= CLASSES && Scan(t.sched, ok, paid, k, i) == r
    case Holding(j) => r == Taken(Some(j), t.sched)
    case Parked => r == Taken(None, t.sched)
    case _ => false
  }

  // Each ScanStep of the protocol is one unfolding of Scan: the answer stays the same until
  // the dispatcher holds the answer, or parks because there is none.
  lemma ScanStepFollows(c: Config, s: System, ok: Filter)
    requires ScanReady(s) && forall j :: ok(j) <==> !Blocked(c, s.active, j)
    ensures Answers(NextScan(c, s), ok, Scan(s.sched, ok, s.pc.paid, s.pc.cls, s.pc.pos))
  {
  }
}
