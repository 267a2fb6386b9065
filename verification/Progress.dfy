// Possible progress: which queued executions can still be dispatched.

module Progress {
  import opened Option
  import opened Collections
  import opened Executions
  import opened Scheduler
  import opened Engine
  import opened Places
  import opened Slots
  import opened Wakeups
  import opened Waiting
  import opened Cancellation

  ghost predicate Inv(c: Config, s: System) { ValidConfig(c) && FullInv(c, s) && WakeInv(c, s) }

  lemma InvStep(c: Config, s: System, a: Action)
    requires Inv(c, s)
    ensures Inv(c, Step(c, s, a))
  {
    FullStep(c, s, a);
    WakeAlways(c, s, [a]);
    assert Run(c, s, [a]) == Step(c, s, a) by { assert [a][1..] == []; }
  }

  lemma ReachableInv(c: Config, s: System)
    requires Reachable(c, s)
    ensures Inv(c, s)
  {
    ReachableFull(c, s);
    var acts :| Run(c, INIT, acts) == s;
    WakeAlways(c, INIT, acts);
  }

  // The dispatcher serves the job's class, and its provider admits at least one execution.
  predicate Startable(c: Config, j: Job) {
    Known(ClassOf(j)) && (j.provider != "" && j.provider in c.limits ==> c.limits[j.provider] > 0)
  }

  predicate CanStart(c: Config, s: System, id: string) {
    IsQueued(s.entries, id) && Startable(c, s.entries[id].job) && !s.pc.Stopped?
  }

  // ---------------------------------------------------------------- the measure

  // How many steps an execution is from its end, at most.
  function Effort(p: Place): nat {
    match p
    case Submitting(_) => 0
    case InQueue => 8
    case Held => 7
    case InRun(Starting) => 6
    case InRun(Working) => 5
    case InRun(Backoff) => 5
    case InRun(Finished) => 4
    case InRun(SlotFree) => 3
    case InRun(ProviderFree) => 2
    case Removed => 0
    case Done => 0
  }

  ghost function Work(entries: Entries): nat
    decreases |entries|
  {
    if entries == map[] then 0 else
      var id :| id in entries;
      Effort(entries[id].place) + Work(entries - {id})
  }

  lemma {:induction false} WorkWithout(entries: Entries, id: string)
    requires id in entries
    ensures Work(entries) == Effort(entries[id].place) + Work(entries - {id})
    decreases |entries|
  {
    var x :| x in entries && Work(entries) == Effort(entries[x].place) + Work(entries - {x});
    if x != id {
      WorkWithout(entries - {x}, id);
      WorkWithout(entries - {id}, x);
      assert entries - {x} - {id} == entries - {id} - {x};
    }
  }

  lemma WorkUpdate(entries: Entries, id: string, e: Entry)
    requires id in entries
    ensures Work(entries[id := e]) == Work(entries) - Effort(entries[id].place) + Effort(e.place)
  {
    WorkWithout(entries, id);
    WorkWithout(entries[id := e], id);
    assert entries[id := e] - {id} == entries - {id};
  }

  // The scan will still come past the execution.
  ghost predicate Ahead(s: System, id: string)
    requires IsQueued(s.entries, id)
  {
    s.pc.Scanning? &&
    (s.pc.paid || exists k: nat, i: nat :: At(s, id, k, i) && (s.pc.cls < k || (s.pc.cls == k && s.pc.pos <= i)))
  }

  predicate At(s: System, id: string, k: nat, i: nat)
    requires IsQueued(s.entries, id)
  {
    k < CLASSES && i < |s.sched.Queue(ClassAt(k))| && s.sched.Queue(ClassAt(k))[i] == s.entries[id].job
  }

  ghost function Stage(s: System, id: string): nat
    requires IsQueued(s.entries, id)
  {
    match s.pc
    case Acquired(_) => 0
    case Holding(_) => 1
    case Scanning(_, _, _) => if Ahead(s, id) then 2 else 6
    case Checking => 3
    case Parked => if s.signals > 0 then 4 else 5
    case Stopped => 7
  }

  function SweepsLeft(pc: Dispatcher): nat { if pc.Scanning? && pc.paid then 1 else 0 }

  function ClassesLeft(pc: Dispatcher): nat { if pc.Scanning? && pc.cls <= CLASSES then CLASSES - pc.cls else 0 }

  function JobsLeft(s: System): nat {
    if s.pc.Scanning? && s.pc.cls < CLASSES && s.pc.pos < |s.sched.Queue(ClassAt(s.pc.cls))|
    then |s.sched.Queue(ClassAt(s.pc.cls))| - s.pc.pos else 0
  }

  // t is closer than s to dispatching the execution.
  ghost predicate Closer(s: System, t: System, id: string)
    requires IsQueued(s.entries, id) && IsQueued(t.entries, id)
  {
    Work(t.entries) < Work(s.entries)
    || (Work(t.entries) == Work(s.entries)
        && (Stage(t, id) < Stage(s, id)
            || (Stage(t, id) == Stage(s, id)
                && (SweepsLeft(t.pc) < SweepsLeft(s.pc)
                    || (SweepsLeft(t.pc) == SweepsLeft(s.pc)
                        && (ClassesLeft(t.pc) < ClassesLeft(s.pc)
                            || (ClassesLeft(t.pc) == ClassesLeft(s.pc) && JobsLeft(t) < JobsLeft(s))))))))
  }

  // ---------------------------------------------------------------- one step closer

  lemma {:induction false} FreshNumber(m: map<nat, Notifier>, k: nat) returns (n: nat)
    ensures n !in m && n >= k
    decreases |m|
  {
    if k !in m {
      n := k;
    } else {
      n := FreshNumber(m - {k}, k + 1);
    }
  }

  lemma SlotInUse(c: Config, s: System, x: string)
    requires Inv(c, s) && x in s.entries && HoldsSlot(s.entries[x].place)
    ensures s.semUsed > 0
  {
    assert x in SlotHolders(s.entries);
  }

  // An execution that has its goroutine can take a step towards its end.
  lemma Drain(c: Config, s: System, x: string) returns (a: Action)
    requires Inv(c, s) && x in s.entries && s.entries[x].place.InRun?
    ensures ByRunner(a) && a.id == x && Enabled(c, s, a) && Work(Next(c, s, a).entries) < Work(s.entries)
    ensures !a.Retry? && !a.Resume? && (a.Finish? ==> !IsAt(s, x, InRun(Finished)))
  {
    hide Inv;
    var n := FreshNumber(s.waits.notifiers, 0);
    a := match s.entries[x].place.phase
      case Starting => Start(x)
      case Working => Finish(x, Failed)
      case Backoff => Finish(x, Failed)
      case Finished => FreeSlot(x)
      case SlotFree => FreeProvider(x)
      case ProviderFree => SignalDone(x, n);
    if s.entries[x].place.phase.Finished? { SlotInUse(c, s, x); }
    RunnerWork(c, s, a);
  }

  // Every runner action but Retry and Resume brings its execution closer to its end.
  lemma RunnerWork(c: Config, s: System, a: Action)
    requires Enabled(c, s, a) && ByRunner(a) && !a.Retry? && !a.Resume?
    requires a.Finish? ==> !IsAt(s, a.id, InRun(Finished))
    ensures Work(NextRun(c, s, a).entries) < Work(s.entries)
  {
    WorkUpdate(s.entries, a.id, NextRun(c, s, a).entries[a.id]);
  }

  predicate Idle(s: System) { forall x :: x in s.entries ==> !s.entries[x].place.InRun? }

  lemma NothingBlocked(c: Config, s: System, j: Job)
    requires Inv(c, s) && Idle(s) && Startable(c, j)
    ensures s.semUsed == One(s.pc.Acquired?) && !Blocked(c, s.active, j)
  {
    assert SlotHolders(s.entries) == {};
    assert ProviderHolders(s.entries, j.provider) == {};
  }

  lemma WhereQueued(c: Config, s: System, id: string) returns (k: nat, i: nat)
    requires Inv(c, s) && CanStart(c, s, id)
    ensures At(s, id, k, i)
  {
    var p := ClassOf(s.entries[id].job);
    assert Places.Queued(s.sched, s.entries[id].job);
    OrderCoversKnown(p);
    k := RankOf(p);
    i :| 0 <= i < |s.sched.Queue(p)| && s.sched.Queue(p)[i] == s.entries[id].job;
  }

  lemma NotAllEmpty(s: System, id: string, k: nat, i: nat)
    requires IsQueued(s.entries, id) && At(s, id, k, i)
    ensures !s.sched.AllEmpty()
  {
    TotalLenZero(s.sched.queues);
  }

  lemma SweepEndCloser(c: Config, s: System, id: string)
    requires Inv(c, s) && CanStart(c, s, id) && ScanReady(s) && s.pc.cls == CLASSES
    ensures CanStart(c, NextScan(c, s), id) && Closer(s, NextScan(c, s), id)
  {
    var k, i := WhereQueued(c, s, id);
    NotAllEmpty(s, id, k, i);
    if s.pc.paid {
      var t := NextScan(c, s);
      assert t.sched.Queue(ClassAt(k)) == s.sched.Queue(ClassAt(k));
      assert At(t, id, k, i) && Ahead(t, id);
    }
  }

  lemma PassCloser(c: Config, s: System, id: string)
    requires Inv(c, s) && CanStart(c, s, id) && Idle(s) && ScanReady(s)
    requires s.pc.cls < CLASSES && (ClassEnded(s) || Refuses(c, s))
    ensures CanStart(c, NextScan(c, s), id) && Closer(s, NextScan(c, s), id)
  {
    if Ahead(s, id) { ScanStaysAhead(c, s, id); }
  }

  lemma TakeCloser(c: Config, s: System, id: string)
    requires Inv(c, s) && CanStart(c, s, id) && ScanReady(s)
    requires s.pc.cls < CLASSES && !ClassEnded(s) && !Refuses(c, s)
    ensures var t := NextScan(c, s); IsAt(t, id, Held) || (CanStart(c, t, id) && Closer(s, t, id))
  {
    ScanStands(s);
    var j := s.sched.Queue(ClassAt(s.pc.cls))[s.pc.pos];
    WorkUpdate(s.entries, j.id, s.entries[j.id].(place := Held));
  }

  // One iteration of the scan while nothing runs.
  lemma ScanCloser(c: Config, s: System, id: string)
    requires Inv(c, s) && CanStart(c, s, id) && Idle(s) && s.pc.Scanning?
    ensures ScanReady(s)
    ensures var t := NextScan(c, s); IsAt(t, id, Held) || (CanStart(c, t, id) && Closer(s, t, id))
  {
    hide Closer, CanStart, NextScan, Inv;
    assert PlaceInv(s) by { InvPlace(c, s); }
    ScanStands(s);
    if s.pc.cls == CLASSES {
      SweepEndCloser(c, s, id);
    } else if ClassEnded(s) || Refuses(c, s) {
      PassCloser(c, s, id);
    } else {
      TakeCloser(c, s, id);
    }
  }

  lemma InvPlace(c: Config, s: System)
    requires Inv(c, s)
    ensures PlaceInv(s)
  {
  }

  lemma ScanStaysAhead(c: Config, s: System, id: string)
    requires Inv(c, s) && CanStart(c, s, id) && Idle(s) && ScanReady(s) && Ahead(s, id)
    requires s.pc.cls < CLASSES && (ClassEnded(s) || Refuses(c, s))
    ensures IsQueued(NextScan(c, s).entries, id) && Ahead(NextScan(c, s), id)
  {
    hide Inv, CanStart, Idle;
    assert IsQueued(s.entries, id) && !Blocked(c, s.active, s.entries[id].job) by { FreeToStart(c, s, id); }
    var t := NextScan(c, s);
    if !s.pc.paid {
      var k: nat, i: nat :| At(s, id, k, i) && (s.pc.cls < k || (s.pc.cls == k && s.pc.pos <= i));
      assert At(t, id, k, i);
    }
  }

  lemma FreeToStart(c: Config, s: System, id: string)
    requires Inv(c, s) && CanStart(c, s, id) && Idle(s)
    ensures IsQueued(s.entries, id) && !Blocked(c, s.active, s.entries[id].job)
  {
    NothingBlocked(c, s, s.entries[id].job);
  }

  // A parked dispatcher has a wake-up coming while a startable execution waits and nothing runs.
  lemma WakeUpComing(c: Config, s: System, id: string)
    requires Inv(c, s) && CanStart(c, s, id) && Idle(s) && s.pc.Parked? && s.signals == 0
    ensures s.entered != {}
  {
    var k, i := WhereQueued(c, s, id);
    NothingBlocked(c, s, s.entries[id].job);
    assert Blocked(c, s.active, s.sched.Queue(ClassAt(k))[i]) <==> Blocked(c, s.active, s.entries[id].job);
  }

  lemma LaunchCloser(c: Config, s: System, id: string)
    requires PlaceInv(s) && CanStart(c, s, id) && s.pc.Acquired?
    ensures Enabled(c, s, Launch) && CanStart(c, NextDispatch(c, s, Launch), id)
      && Closer(s, NextDispatch(c, s, Launch), id)
  {
    var x := s.pc.job.id;
    assert EntryOk(s, x);
    WorkUpdate(s.entries, x, s.entries[x].(place := InRun(Starting)));
  }

  lemma ParkedCloser(c: Config, s: System, id: string) returns (a: Action)
    requires Inv(c, s) && CanStart(c, s, id) && Idle(s) && s.pc.Parked?
    ensures Enabled(c, s, a) && CanStart(c, Next(c, s, a), id) && Closer(s, Next(c, s, a), id)
  {
    hide FullInv, WakeInv;
    if s.signals > 0 {
      a := Receive;
    } else {
      WakeUpComing(c, s, id);
      var x :| x in s.entered;
      a := SignalSubmit(x);
    }
  }

  lemma DispatcherCloser(c: Config, s: System, id: string) returns (a: Action)
    requires Inv(c, s) && CanStart(c, s, id) && Idle(s) && !s.pc.Scanning?
    ensures Enabled(c, s, a) && CanStart(c, Next(c, s, a), id) && Closer(s, Next(c, s, a), id)
  {
    hide WaitInv, QueueInv, WakeInv, SlotInv;
    NothingBlocked(c, s, s.entries[id].job);
    match s.pc
    case Acquired(j) =>
      a := Launch;
      LaunchCloser(c, s, id);
    case Holding(j) => a := Acquire;
    case Checking => a := CheckSlots;
    case Parked => a := ParkedCloser(c, s, id);
  }

  lemma Advance(c: Config, s: System, id: string) returns (a: Action)
    requires Inv(c, s) && CanStart(c, s, id)
    ensures Enabled(c, s, a)
    ensures var t := Next(c, s, a); IsAt(t, id, Held) || (CanStart(c, t, id) && Closer(s, t, id))
  {
    hide Inv;
    if x :| x in s.entries && s.entries[x].place.InRun? {
      a := Drain(c, s, x);
    } else if s.pc.Scanning? {
      ScanCloser(c, s, id);
      a := ScanStep;
    } else {
      a := DispatcherCloser(c, s, id);
    }
  }

  lemma LeadsAcross(c: Config, s: System, t: System, u: System)
    requires Leads(c, s, t) && Leads(c, t, u)
    ensures Leads(c, s, u)
  {
    var a :| Run(c, s, a) == t;
    var b :| Run(c, t, b) == u;
    RunAppend(c, s, a, b);
  }

  lemma {:induction false} DriveToHeld(c: Config, s: System, id: string) returns (u: System)
    requires Inv(c, s) && CanStart(c, s, id)
    ensures Leads(c, s, u) && Inv(c, u) && IsAt(u, id, Held)
    decreases Work(s.entries), Stage(s, id), SweepsLeft(s.pc), ClassesLeft(s.pc), JobsLeft(s)
  {
    var a := Advance(c, s, id);
    var t := Step(c, s, a);
    InvStep(c, s, a);
    LeadsRefl(c, s);
    LeadsStep(c, s, s, a);
    if IsAt(t, id, Held) {
      u := t;
    } else {
      u := DriveToHeld(c, t, id);
      LeadsAcross(c, s, t, u);
    }
  }
}
