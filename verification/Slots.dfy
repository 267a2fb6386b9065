// Semaphore and provider accounting over all interleavings, and the queue depth bound.

module Slots {
  import opened Option
  import opened Collections
  import opened Executions
  import opened Scheduler
  import opened Engine
  import opened Places

  predicate HoldsSlot(p: Place) { p.InRun? && !p.phase.SlotFree? && !p.phase.ProviderFree? }

  predicate HoldsProvider(p: Place) { p.InRun? && !p.phase.ProviderFree? }

  // Executions dispatched and not yet past the semaphore receive of releaseSlots.
  ghost function SlotHolders(entries: Entries): set<string> {
    set id | id in entries && HoldsSlot(entries[id].place)
  }

  // Executions of provider p dispatched and not yet past the decrement of releaseSlots.
  ghost function ProviderHolders(entries: Entries, p: string): set<string> {
    set id | id in entries && entries[id].job.provider == p && HoldsProvider(entries[id].place)
  }

  function One(b: bool): nat { if b then 1 else 0 }

  predicate ReleasesOk(e: Entry) {
    e.releases == One(e.place.Done? || (e.place.InRun? && (e.place.phase.SlotFree? || e.place.phase.ProviderFree?)))
  }

  predicate WithinLimit(c: Config, active: map<string, int>, p: string) {
    p in c.limits ==> Load(active, p) == 0 || Load(active, p) <= c.limits[p]
  }

  ghost predicate SemInv(c: Config, s: System) {
    && s.semUsed == |SlotHolders(s.entries)| + One(s.pc.Acquired?)
    && s.semUsed <= c.slots
    && (s.pc.Scanning? || s.pc.Holding? ==> s.semUsed < c.slots)
  }

  ghost predicate ProviderInv(c: Config, s: System) {
    && (forall p :: p != "" ==> Load(s.active, p) == |ProviderHolders(s.entries, p)|)
    && (forall p :: WithinLimit(c, s.active, p))
    && (s.pc.Holding? || s.pc.Acquired? ==> !Blocked(c, s.active, s.pc.job))
  }

  ghost predicate SlotInv(c: Config, s: System) {
    && SemInv(c, s) && ProviderInv(c, s)
    && forall id :: id in s.entries ==> ReleasesOk(s.entries[id])
  }

  lemma SlotInit(c: Config)
    ensures SlotInv(c, INIT)
  {
    assert SlotHolders(INIT.entries) == {};
    forall p ensures ProviderHolders(INIT.entries, p) == {} { }
  }

  // ---------------------------------------------------------------- counting

  lemma SlotCount(entries: Entries, id: string, e: Entry)
    ensures |SlotHolders(entries[id := e])|
         == |SlotHolders(entries)| + One(HoldsSlot(e.place)) - One(id in entries && HoldsSlot(entries[id].place))
  {
    var a, b := SlotHolders(entries), SlotHolders(entries[id := e]);
    if HoldsSlot(e.place) {
      assert b == a + {id};
    } else {
      assert b == a - {id};
    }
  }

  lemma ProviderCount(entries: Entries, id: string, e: Entry, p: string)
    requires id in entries ==> e.job == entries[id].job
    ensures |ProviderHolders(entries[id := e], p)|
         == |ProviderHolders(entries, p)|
            + if e.job.provider != p then 0
              else One(HoldsProvider(e.place)) - One(id in entries && HoldsProvider(entries[id].place))
  {
    var a, b := ProviderHolders(entries, p), ProviderHolders(entries[id := e], p);
    if e.job.provider == p && HoldsProvider(e.place) {
      assert b == a + {id};
    } else {
      assert b == a - {id};
    }
  }

  // ---------------------------------------------------------------- one step

  lemma SemCaller(c: Config, s: System, a: Action)
    requires SemInv(c, s) && PlaceInv(s) && Enabled(c, s, a) && ByCaller(a)
    ensures SemInv(c, NextCaller(c, s, a))
  {
    var t := NextCaller(c, s, a);
    match a
    case Admit(j) => SlotCount(s.entries, j.id, t.entries[j.id]);
    case Mark(id) => SlotCount(s.entries, id, t.entries[id]);
    case Enter(id) => SlotCount(s.entries, id, t.entries[id]);
    case Cancel(id, n) => SlotCount(s.entries, id, t.entries[id]);
    case SignalSubmit(_) =>
  }

  lemma SemDispatch(c: Config, s: System, a: Action)
    requires SemInv(c, s) && PlaceInv(s) && Enabled(c, s, a) && ByDispatcher(a)
    ensures SemInv(c, NextDispatch(c, s, a))
  {
    var t := NextDispatch(c, s, a);
    if a.Launch? {
      var id := s.pc.job.id;
      assert EntryOk(s, id);
      SlotCount(s.entries, id, t.entries[id]);
    } else if a.ScanStep? && s.pc.cls < CLASSES && !ClassEnded(s) && !Refuses(c, s) {
      ScanStands(s);
      var id := s.sched.Queue(ClassAt(s.pc.cls))[s.pc.pos].id;
      SlotCount(s.entries, id, t.entries[id]);
    }
  }

  lemma SemRun(c: Config, s: System, a: Action)
    requires SemInv(c, s) && Enabled(c, s, a) && ByRunner(a)
    ensures SemInv(c, NextRun(c, s, a))
  {
    SlotCount(s.entries, a.id, NextRun(c, s, a).entries[a.id]);
  }

  lemma SemWait(c: Config, s: System, a: Action)
    requires SemInv(c, s) && Enabled(c, s, a) && ByWaiter(a)
    ensures SemInv(c, NextWait(c, s, a))
  {
    var t := NextWait(c, s, a);
    if a.Claim? {
      var id := s.waits.notifiers[a.n].id;
      SlotCount(s.entries, id, t.entries[id]);
    } else if a.Register? {
      var id := s.waits.channels[a.ch].id;
      SlotCount(s.entries, id, t.entries[id]);
    }
  }

  // Rewriting an entry without touching its hold on the provider keeps the accounting.
  lemma ProviderSame(c: Config, s: System, t: System, id: string)
    requires ProviderInv(c, s) && t.active == s.active
    requires id in t.entries && t.entries == s.entries[id := t.entries[id]]
    requires id in s.entries ==> t.entries[id].job == s.entries[id].job
    requires HoldsProvider(t.entries[id].place) <==> id in s.entries && HoldsProvider(s.entries[id].place)
    requires t.pc.Holding? || t.pc.Acquired? ==> !Blocked(c, t.active, t.pc.job)
    ensures ProviderInv(c, t)
  {
    forall p | p != "" ensures Load(t.active, p) == |ProviderHolders(t.entries, p)| {
      ProviderCount(s.entries, id, t.entries[id], p);
    }
  }

  lemma ProviderCaller(c: Config, s: System, a: Action)
    requires ProviderInv(c, s) && Enabled(c, s, a) && ByCaller(a)
    ensures ProviderInv(c, NextCaller(c, s, a))
  {
    var t := NextCaller(c, s, a);
    if a.Admit? {
      ProviderSame(c, s, t, a.job.id);
    } else if !a.SignalSubmit? {
      ProviderSame(c, s, t, a.id);
    }
  }

  lemma ProviderLaunch(c: Config, s: System)
    requires ProviderInv(c, s) && PlaceInv(s) && Enabled(c, s, Launch)
    ensures ProviderInv(c, NextDispatch(c, s, Launch))
  {
    var t := NextDispatch(c, s, Launch);
    var j := s.pc.job;
    assert EntryOk(s, j.id);
    forall p | p != "" ensures Load(t.active, p) == |ProviderHolders(t.entries, p)| {
      ProviderCount(s.entries, j.id, t.entries[j.id], p);
    }
    forall p ensures WithinLimit(c, t.active, p) { assert WithinLimit(c, s.active, p); }
  }

  lemma ProviderDispatch(c: Config, s: System, a: Action)
    requires ProviderInv(c, s) && PlaceInv(s) && Enabled(c, s, a) && ByDispatcher(a)
    ensures ProviderInv(c, NextDispatch(c, s, a))
  {
    if a.Launch? {
      ProviderLaunch(c, s);
    } else if a.ScanStep? && s.pc.cls < CLASSES && !ClassEnded(s) && !Refuses(c, s) {
      ScanStands(s);
      ProviderSame(c, s, NextDispatch(c, s, a), s.sched.Queue(ClassAt(s.pc.cls))[s.pc.pos].id);
    }
  }

  lemma ProviderFreed(c: Config, s: System, id: string)
    requires ProviderInv(c, s) && Enabled(c, s, FreeProvider(id))
    ensures ProviderInv(c, NextRun(c, s, FreeProvider(id)))
  {
    var t := NextRun(c, s, FreeProvider(id));
    var r := s.entries[id].job.provider;
    forall p | p != "" ensures Load(t.active, p) == |ProviderHolders(t.entries, p)| {
      ProviderCount(s.entries, id, t.entries[id], p);
    }
    assert r != "" ==> Load(t.active, r) >= 0;
    forall p ensures WithinLimit(c, t.active, p) { assert WithinLimit(c, s.active, p); }
  }

  lemma ProviderRun(c: Config, s: System, a: Action)
    requires ProviderInv(c, s) && Enabled(c, s, a) && ByRunner(a)
    ensures ProviderInv(c, NextRun(c, s, a))
  {
    if a.FreeProvider? {
      ProviderFreed(c, s, a.id);
    } else {
      ProviderSame(c, s, NextRun(c, s, a), a.id);
    }
  }

  lemma ProviderWait(c: Config, s: System, a: Action)
    requires ProviderInv(c, s) && Enabled(c, s, a) && ByWaiter(a)
    ensures ProviderInv(c, NextWait(c, s, a))
  {
    var t := NextWait(c, s, a);
    if a.Claim? {
      ProviderSame(c, s, t, s.waits.notifiers[a.n].id);
    } else if a.Register? {
      ProviderSame(c, s, t, s.waits.channels[a.ch].id);
    }
  }

  lemma ReleasesRun(c: Config, s: System, a: Action, id: string)
    requires Enabled(c, s, a) && ByRunner(a)
    requires id in s.entries ==> ReleasesOk(s.entries[id])
    ensures id in NextRun(c, s, a).entries ==> ReleasesOk(NextRun(c, s, a).entries[id])
  {
  }

  lemma ReleasesDispatch(c: Config, s: System, a: Action, id: string)
    requires Enabled(c, s, a) && PlaceInv(s) && ByDispatcher(a)
    requires id in s.entries ==> ReleasesOk(s.entries[id])
    ensures id in NextDispatch(c, s, a).entries ==> ReleasesOk(NextDispatch(c, s, a).entries[id])
  {
    if a.Launch? { assert EntryOk(s, s.pc.job.id); }
    if a.ScanStep? { ScanStands(s); }
  }

  lemma ReleasesOther(c: Config, s: System, a: Action, id: string)
    requires Enabled(c, s, a) && (ByCaller(a) || ByWaiter(a))
    requires id in s.entries ==> ReleasesOk(s.entries[id])
    ensures id in Next(c, s, a).entries ==> ReleasesOk(Next(c, s, a).entries[id])
  {
  }

  lemma SemNext(c: Config, s: System, a: Action)
    requires SemInv(c, s) && PlaceInv(s) && Enabled(c, s, a)
    ensures SemInv(c, Next(c, s, a))
  {
    hide SemInv, PlaceInv;
    if ByCaller(a) { SemCaller(c, s, a); }
    else if ByDispatcher(a) { SemDispatch(c, s, a); }
    else if ByWaiter(a) { SemWait(c, s, a); }
    else { SemRun(c, s, a); }
  }

  lemma ProviderNext(c: Config, s: System, a: Action)
    requires ProviderInv(c, s) && PlaceInv(s) && Enabled(c, s, a)
    ensures ProviderInv(c, Next(c, s, a))
  {
    hide ProviderInv, PlaceInv;
    if ByCaller(a) { ProviderCaller(c, s, a); }
    else if ByDispatcher(a) { ProviderDispatch(c, s, a); }
    else if ByWaiter(a) { ProviderWait(c, s, a); }
    else { ProviderRun(c, s, a); }
  }

  lemma SlotNext(c: Config, s: System, a: Action)
    requires SlotInv(c, s) && PlaceInv(s) && Enabled(c, s, a)
    ensures SlotInv(c, Next(c, s, a))
  {
    hide SemInv, ProviderInv, PlaceInv;
    SemNext(c, s, a);
    ProviderNext(c, s, a);
    forall id | id in Next(c, s, a).entries ensures ReleasesOk(Next(c, s, a).entries[id]) {
      if ByRunner(a) { ReleasesRun(c, s, a, id); }
      else if ByDispatcher(a) { ReleasesDispatch(c, s, a, id); }
      else { ReleasesOther(c, s, a, id); }
    }
  }

  // ---------------------------------------------------------------- whole runs

  ghost predicate CoreInv(c: Config, s: System) { PlaceInv(s) && SlotInv(c, s) }

  lemma {:induction false} CoreAlways(c: Config, s: System, acts: seq<Action>)
    requires CoreInv(c, s)
    ensures CoreInv(c, Run(c, s, acts))
    decreases |acts|
  {
    if |acts| > 0 {
      if Enabled(c, s, acts[0]) {
        PlaceNext(c, s, acts[0]);
        SlotNext(c, s, acts[0]);
      }
      CoreAlways(c, Step(c, s, acts[0]), acts[1..]);
    }
  }

  lemma ReachableCore(c: Config, s: System)
    requires Reachable(c, s)
    ensures CoreInv(c, s)
  {
    PlaceInit();
    SlotInit(c);
    var acts :| Run(c, INIT, acts) == s;
    CoreAlways(c, INIT, acts);
  }

  // Slot accounting: in every reachable state the semaphore holds one slot per execution that
  // was dispatched and not yet released (plus the one being dispatched), each provider count is
  // the number of its executions in flight and never exceeds a configured limit, the semaphore
  // send and receive never block, and no execution releases its slots twice.
  lemma SlotAccounting(c: Config, s: System)
    requires Reachable(c, s)
    ensures s.semUsed == |SlotHolders(s.entries)| + One(s.pc.Acquired?) && 0 <= s.semUsed <= c.slots
    ensures forall p :: p != "" ==> Load(s.active, p) == |ProviderHolders(s.entries, p)|
    ensures forall p :: p != "" && p in c.limits && |ProviderHolders(s.entries, p)| > 0 ==>
      Load(s.active, p) <= c.limits[p]
    ensures s.pc.Holding? ==> Enabled(c, s, Acquire)
    ensures forall id :: IsAt(s, id, InRun(Finished)) ==> Enabled(c, s, FreeSlot(id))
    ensures forall id :: id in s.entries ==>
      s.entries[id].releases <= 1 && (s.entries[id].place == Done ==> s.entries[id].releases == 1)
  {
    ReachableCore(c, s);
    forall p | p != "" && p in c.limits && |ProviderHolders(s.entries, p)| > 0
      ensures Load(s.active, p) <= c.limits[p]
    {
      assert WithinLimit(c, s.active, p);
    }
    forall id | IsAt(s, id, InRun(Finished)) ensures s.semUsed > 0 {
      assert id in SlotHolders(s.entries);
      assert SlotHolders(s.entries) != {};
    }
    forall id | id in s.entries
      ensures s.entries[id].releases <= 1 && (s.entries[id].place == Done ==> s.entries[id].releases == 1)
    {
      assert ReleasesOk(s.entries[id]);
    }
  }

  // ---------------------------------------------------------------- queue depth

  // Submit calls between the capacity check and Enqueue.
  ghost function Pending(entries: Entries): set<string> {
    set id | id in entries && entries[id].place.Submitting?
  }

  // Submit calls between the capacity check and the wake-up.
  ghost function InSubmit(s: System): set<string> { Pending(s.entries) + s.entered }

  ghost predicate DepthInv(c: Config, s: System, n: nat) {
    s.sched.Depth() + |Pending(s.entries)| <= if c.queueSize == 0 then 0 else c.queueSize + n - 1
  }

  lemma PendingCount(entries: Entries, id: string, e: Entry)
    ensures |Pending(entries[id := e])|
         == |Pending(entries)| + One(e.place.Submitting?) - One(id in entries && entries[id].place.Submitting?)
  {
    if e.place.Submitting? {
      assert Pending(entries[id := e]) == Pending(entries) + {id};
    } else {
      assert Pending(entries[id := e]) == Pending(entries) - {id};
    }
  }

  lemma DepthEnqueued(s: State, j: Job)
    ensures Enqueued(s, j).Depth() == s.Depth() + 1
  {
    TotalLenUpdate(s.queues, ClassOf(j), s.Queue(ClassOf(j)) + [j]);
  }

  lemma DepthDropped(s: State, p: PriorityClass, i: nat)
    requires i < |s.Queue(p)|
    ensures DropAt(s, p, i).Depth() == s.Depth() - 1
  {
    TotalLenUpdate(s.queues, p, RemoveAt(s.Queue(p), i));
  }

  lemma DepthCaller(c: Config, s: System, a: Action, n: nat)
    requires DepthInv(c, s, n) && PlaceInv(s) && Enabled(c, s, a) && ByCaller(a)
    requires |InSubmit(NextCaller(c, s, a))| <= n
    ensures DepthInv(c, NextCaller(c, s, a), n)
  {
    var t := NextCaller(c, s, a);
    match a
    case Admit(j) =>
      SubsetSize(Pending(t.entries), InSubmit(t));
    case Mark(id) => PendingCount(s.entries, id, t.entries[id]);
    case Enter(id) =>
      PendingCount(s.entries, id, t.entries[id]);
      DepthEnqueued(s.sched, s.entries[id].job);
    case SignalSubmit(_) =>
    case Cancel(id, _) =>
      PendingCount(s.entries, id, t.entries[id]);
      var p := ClassOf(s.entries[id].job);
      var i := FirstWithId(s.sched.Queue(p), id);
      if i < |s.sched.Queue(p)| { DepthDropped(s.sched, p, i); }
  }

  lemma SubsetSize<T>(a: set<T>, b: set<T>)
    requires a <= b
    ensures |a| <= |b|
  {
    assert b == a + (b - a);
  }

  lemma DepthOther(c: Config, s: System, a: Action, n: nat)
    requires DepthInv(c, s, n) && PlaceInv(s) && Enabled(c, s, a) && !ByCaller(a)
    ensures DepthInv(c, Next(c, s, a), n)
  {
    var t := Next(c, s, a);
    if a.ScanStep? {
      if s.pc.cls < CLASSES && !ClassEnded(s) && !Refuses(c, s) {
        ScanStands(s);
        var id := s.sched.Queue(ClassAt(s.pc.cls))[s.pc.pos].id;
        PendingCount(s.entries, id, t.entries[id]);
        DepthDropped(s.sched, ClassAt(s.pc.cls), s.pc.pos);
      }
    } else if a.Launch? {
      assert EntryOk(s, s.pc.job.id);
      PendingCount(s.entries, s.pc.job.id, t.entries[s.pc.job.id]);
    } else if ByRunner(a) {
      PendingCount(s.entries, a.id, t.entries[a.id]);
    } else if a.Claim? {
      var id := s.waits.notifiers[a.n].id;
      PendingCount(s.entries, id, t.entries[id]);
    } else if a.Register? {
      var id := s.waits.channels[a.ch].id;
      PendingCount(s.entries, id, t.entries[id]);
    }
  }

  // At every moment of the run at most n Submit calls are between their capacity check and
  // their wake-up.
  ghost predicate AtMostSubmitting(c: Config, s: System, acts: seq<Action>, n: nat)
    decreases |acts|
  {
    |InSubmit(s)| <= n && (|acts| == 0 || AtMostSubmitting(c, Step(c, s, acts[0]), acts[1..], n))
  }

  lemma {:induction false} DepthAlways(c: Config, s: System, acts: seq<Action>, n: nat)
    requires CoreInv(c, s) && DepthInv(c, s, n) && AtMostSubmitting(c, s, acts, n)
    ensures DepthInv(c, Run(c, s, acts), n)
    decreases |acts|
  {
    if |acts| > 0 {
      var t := Step(c, s, acts[0]);
      if Enabled(c, s, acts[0]) {
        assert |InSubmit(t)| <= n;
        PlaceNext(c, s, acts[0]);
        SlotNext(c, s, acts[0]);
        if ByCaller(acts[0]) { DepthCaller(c, s, acts[0], n); } else { DepthOther(c, s, acts[0], n); }
      }
      DepthAlways(c, t, acts[1..], n);
    }
  }

  // Submit checks the capacity outside the lock it enqueues under. Still, with at most n
  // submitters at a time the queue never holds more than queueSize + n - 1 executions.
  lemma QueueDepthBound(c: Config, acts: seq<Action>, n: nat)
    requires n > 0 && AtMostSubmitting(c, INIT, acts, n)
    ensures Run(c, INIT, acts).sched.Depth() <= if c.queueSize == 0 then 0 else c.queueSize + n - 1
  {
    PlaceInit();
    SlotInit(c);
    assert INIT.sched.Depth() == 0;
    assert Pending(INIT.entries) == {};
    DepthAlways(c, INIT, acts, n);
  }
}
