// No stranded work: the lossy wake-up channel never leaves dispatchable work behind a parked
// dispatcher.

module Wakeups {
  import opened Option
  import opened Collections
  import opened Executions
  import opened Scheduler
  import opened Engine
  import opened Places
  import opened Slots

  // A finisher between its semaphore receive and its wake-up.
  predicate Releasing(entries: Entries, id: string) {
    id in entries && entries[id].place.InRun?
      && (entries[id].place.phase.SlotFree? || entries[id].place.phase.ProviderFree?)
  }

  // A wake-up is in the channel, or a submitter or finisher is about to send one.
  ghost predicate WakePending(s: System) {
    s.signals > 0 || s.entered != {} || exists id :: Releasing(s.entries, id)
  }

  // Everything the free sweep has passed when it stands at position i of class rank k is blocked.
  ghost predicate BlockedUpTo(c: Config, sched: State, active: map<string, int>, k: nat, i: nat) {
    forall h: nat, m: nat :: h < CLASSES && m < |sched.Queue(ClassAt(h))| && (h < k || (h == k && m < i)) ==>
      Blocked(c, active, sched.Queue(ClassAt(h))[m])
  }

  ghost predicate WakeInv(c: Config, s: System) {
    match s.pc
    case Parked => WakePending(s) || s.semUsed >= c.slots || BlockedUpTo(c, s.sched, s.active, CLASSES, 0)
    case Scanning(paid, k, i) => paid || WakePending(s) || BlockedUpTo(c, s.sched, s.active, k, i)
    case _ => true
  }

  lemma ReleasingKeeps(s: System, t: System, id: string)
    requires id in t.entries && t.entries == s.entries[id := t.entries[id]]
    requires Releasing(s.entries, id) ==> Releasing(t.entries, id)
    requires t.signals >= s.signals && s.entered <= t.entered
    ensures WakePending(s) ==> WakePending(t)
  {
    forall x | Releasing(s.entries, x) ensures Releasing(t.entries, x) { }
  }

  // Queues that only lose jobs stay blocked.
  lemma BlockedAfterRemove(c: Config, sched: State, active: map<string, int>, p: PriorityClass, id: string)
    requires BlockedUpTo(c, sched, active, CLASSES, 0)
    ensures BlockedUpTo(c, RemovedIn(sched, p, id), active, CLASSES, 0)
  {
    var t := RemovedIn(sched, p, id);
    var r := FirstWithId(sched.Queue(p), id);
    forall h: nat, m: nat | h < CLASSES && m < |t.Queue(ClassAt(h))|
      ensures Blocked(c, active, t.Queue(ClassAt(h))[m])
    {
      var x := if ClassAt(h) == p && r <= m then m + 1 else m;
      if r < |sched.Queue(p)| {
        assert t.Queue(ClassAt(h))[m] == sched.Queue(ClassAt(h))[x];
      }
    }
  }

  lemma WakeCaller(c: Config, s: System, a: Action)
    requires ValidConfig(c) && WakeInv(c, s) && Enabled(c, s, a) && ByCaller(a)
    ensures WakeInv(c, NextCaller(c, s, a))
  {
    var t := NextCaller(c, s, a);
    match a
    case Admit(j) => ReleasingKeeps(s, t, j.id);
    case Mark(id) => ReleasingKeeps(s, t, id);
    case Enter(id) => assert id in t.entered;
    case SignalSubmit(_) => assert t.signals > 0;
    case Cancel(id, _) =>
      ReleasingKeeps(s, t, id);
      if BlockedUpTo(c, s.sched, s.active, CLASSES, 0) {
        BlockedAfterRemove(c, s.sched, s.active, ClassOf(s.entries[id].job), id);
      }
  }

  lemma WakeScan(c: Config, s: System)
    requires WakeInv(c, s) && ScanReady(s)
    ensures WakeInv(c, NextScan(c, s))
  {
    var t := NextScan(c, s);
    var Scanning(paid, k, i) := s.pc;
    if k == CLASSES {
      if t.pc.Parked? && paid {
        TotalLenZero(s.sched.queues);
        assert forall p :: s.sched.Queue(p) == [];
      } else if t.pc.Parked? {
        assert WakePending(s) ==> WakePending(t);
      }
    } else if !paid && !t.pc.Holding? {
      assert WakePending(s) ==> WakePending(t);
      if BlockedUpTo(c, s.sched, s.active, k, i) { ScannedFurther(c, s); }
    }
  }

  lemma ScannedFurther(c: Config, s: System)
    requires ScanReady(s) && s.pc.cls < CLASSES && !s.pc.paid && BlockedUpTo(c, s.sched, s.active, s.pc.cls, s.pc.pos)
    ensures var t := NextScan(c, s);
      t.pc.Scanning? ==>
        t.sched == s.sched && t.active == s.active && BlockedUpTo(c, t.sched, t.active, t.pc.cls, t.pc.pos)
  {
  }

  lemma WakeDispatch(c: Config, s: System, a: Action)
    requires WakeInv(c, s) && Enabled(c, s, a) && ByDispatcher(a)
    ensures WakeInv(c, NextDispatch(c, s, a))
  {
    if a.ScanStep? { WakeScan(c, s); }
  }

  lemma WakeRun(c: Config, s: System, a: Action)
    requires ValidConfig(c) && WakeInv(c, s) && Enabled(c, s, a) && ByRunner(a)
    ensures WakeInv(c, NextRun(c, s, a))
  {
    var t := NextRun(c, s, a);
    if a.FreeSlot? || a.FreeProvider? {
      assert Releasing(t.entries, a.id);
    } else if a.SignalDone? {
      assert t.signals > 0;
    } else {
      ReleasingKeeps(s, t, a.id);
    }
  }

  lemma WakeWait(c: Config, s: System, a: Action)
    requires WakeInv(c, s) && Enabled(c, s, a) && ByWaiter(a)
    ensures WakeInv(c, NextWait(c, s, a))
  {
    var t := NextWait(c, s, a);
    if a.Claim? {
      ReleasingKeeps(s, t, s.waits.notifiers[a.n].id);
    } else if a.Register? {
      ReleasingKeeps(s, t, s.waits.channels[a.ch].id);
    } else {
      assert t.entries == s.entries && t.entered == s.entered && t.signals == s.signals;
    }
  }

  lemma {:induction false} WakeAlways(c: Config, s: System, acts: seq<Action>)
    requires ValidConfig(c) && WakeInv(c, s)
    ensures WakeInv(c, Run(c, s, acts))
    decreases |acts|
  {
    if |acts| > 0 {
      var a := acts[0];
      if Enabled(c, s, a) {
        if ByCaller(a) { WakeCaller(c, s, a); }
        else if ByDispatcher(a) { WakeDispatch(c, s, a); }
        else if ByWaiter(a) { WakeWait(c, s, a); }
        else { WakeRun(c, s, a); }
      }
      WakeAlways(c, Step(c, s, a), acts[1..]);
    }
  }

  lemma SignalsStep(c: Config, s: System, a: Action)
    requires s.signals <= c.signalBuffer
    ensures Step(c, s, a).signals <= c.signalBuffer
  {
  }

  lemma {:induction false} SignalsAlways(c: Config, s: System, acts: seq<Action>)
    requires s.signals <= c.signalBuffer
    ensures Run(c, s, acts).signals <= c.signalBuffer
    decreases |acts|
  {
    if |acts| > 0 {
      SignalsStep(c, s, acts[0]);
      SignalsAlways(c, Step(c, s, acts[0]), acts[1..]);
    }
  }

  // The wake-ups in the channel never exceed its buffer, and one is lost exactly when the buffer
  // is full.
  lemma WakeUpLostIff(c: Config, s: System, a: Action)
    requires Reachable(c, s) && Enabled(c, s, a) && (a.SignalSubmit? || a.SignalDone?)
    ensures s.signals <= c.signalBuffer
    ensures Next(c, s, a).signals == s.signals <==> s.signals == c.signalBuffer
    ensures s.signals < c.signalBuffer ==> Next(c, s, a).signals == s.signals + 1
  {
    var acts :| Run(c, INIT, acts) == s;
    SignalsAlways(c, INIT, acts);
  }

  // A provider in c.limits has at least as many executions in flight as its limit allows.
  ghost predicate AtLimit(c: Config, s: System, provider: string) {
    provider != "" && provider in c.limits && |ProviderHolders(s.entries, provider)| >= c.limits[provider]
  }

  lemma BlockedMeaning(c: Config, s: System, j: Job)
    requires ProviderInv(c, s)
    ensures Blocked(c, s.active, j) <==> AtLimit(c, s, j.provider)
    ensures AtLimit(c, s, j.provider) && c.limits[j.provider] > 0 ==>
      |ProviderHolders(s.entries, j.provider)| == c.limits[j.provider]
  {
    assert WithinLimit(c, s.active, j.provider);
  }

  // No stranded work: whenever the dispatcher is parked, no wake-up is buffered, and nobody is
  // between a state change and its wake-up, then the semaphore is full or every queued
  // execution of a known class is held back by its provider: that provider has a limit, and as
  // many executions in flight as the limit says (none or more, if the limit is not positive).
  // Wake-ups may be dropped, and provider counts may change in the middle of a Dequeue.
  lemma NoStrandedWork(c: Config, s: System)
    requires Reachable(c, s)
    requires s.pc == Parked && s.signals == 0 && s.entered == {} && forall id :: !Releasing(s.entries, id)
    ensures s.semUsed >= c.slots
         || forall p, i :: Known(p) && 0 <= i < |s.sched.Queue(p)| ==>
              var provider := s.sched.Queue(p)[i].provider;
              && provider in c.limits && |ProviderHolders(s.entries, provider)| >= c.limits[provider]
              && (c.limits[provider] > 0 ==> |ProviderHolders(s.entries, provider)| == c.limits[provider])
  {
    var acts :| Run(c, INIT, acts) == s;
    WakeAlways(c, INIT, acts);
    ReachableCore(c, s);
    if s.semUsed < c.slots {
      forall p, i | Known(p) && 0 <= i < |s.sched.Queue(p)|
        ensures AtLimit(c, s, s.sched.Queue(p)[i].provider)
        ensures c.limits[s.sched.Queue(p)[i].provider] > 0 ==>
          |ProviderHolders(s.entries, s.sched.Queue(p)[i].provider)| == c.limits[s.sched.Queue(p)[i].provider]
      {
        OrderCoversKnown(p);
        assert ClassAt(RankOf(p)) == p;
        BlockedMeaning(c, s, s.sched.Queue(p)[i]);
      }
    }
  }

  // A scan that stands at a queued job (of a class that may pay) takes it exactly when its
  // provider has no limit or fewer executions in flight than its limit; otherwise it passes on
  // to the next position.
  lemma ScanTakesIff(c: Config, s: System)
    requires Reachable(c, s) && s.pc.Scanning? && s.pc.cls < CLASSES
    requires s.pc.pos < |s.sched.Queue(ClassAt(s.pc.cls))| && (s.pc.paid ==> s.sched.Credit(ClassAt(s.pc.cls)) > 0)
    ensures Enabled(c, s, ScanStep)
    ensures var j := s.sched.Queue(ClassAt(s.pc.cls))[s.pc.pos];
      var t := Next(c, s, ScanStep);
      if j.provider == "" || j.provider !in c.limits || |ProviderHolders(s.entries, j.provider)| < c.limits[j.provider]
      then t.pc == Holding(j) && IsAt(t, j.id, Held)
      else t == s.(pc := Scanning(s.pc.paid, s.pc.cls, s.pc.pos + 1))
  {
    ReachableCore(c, s);
    ScanStands(s);
    BlockedMeaning(c, s, s.sched.Queue(ClassAt(s.pc.cls))[s.pc.pos]);
  }
}
