// Which queued executions can still run, and which terminal states are final: exact conditions.

module Finality {
  import opened Option
  import opened Collections
  import opened Executions
  import opened Scheduler
  import opened Engine
  import opened Places
  import opened Slots
  import opened Wakeups
  import opened Waiting
  import opened Cancellation
  import opened Progress

  // ---------------------------------------------------------------- what cannot move

  // The dispatcher is gone, serves no such class, or has no place at the provider at all.
  predicate NoChance(c: Config, s: System, id: string)
    requires id in s.entries
  {
    s.pc.Stopped? || !Startable(c, s.entries[id].job)
  }

  // Not with the dispatcher or in its goroutine, and without a chance to get there.
  predicate Stuck(c: Config, s: System, id: string) {
    && id in s.entries && NoChance(c, s, id)
    && (s.entries[id].place.Submitting? || s.entries[id].place.InQueue? || s.entries[id].place.Removed?)
  }

  // The same, with a terminal state that no submitter is about to overwrite.
  predicate StuckTerminal(c: Config, s: System, id: string) {
    Stuck(c, s, id) && s.entries[id].place != Submitting(false) && Terminal(s.entries[id].state)
  }

  // A failed execution whose result is written; the recovery block can only write FAILED again.
  predicate FailedForGood(s: System, id: string) {
    id in s.entries && s.entries[id].place == InRun(Finished) && s.entries[id].state == Failed
  }

  lemma StuckCaller(c: Config, s: System, a: Action, id: string)
    requires Stuck(c, s, id) && Enabled(c, s, a) && (ByCaller(a) || ByWaiter(a))
    ensures Stuck(c, Next(c, s, a), id)
    ensures StuckTerminal(c, s, id) ==>
      StuckTerminal(c, Next(c, s, a), id) && Next(c, s, a).entries[id].state == s.entries[id].state
  {
  }

  lemma StuckRun(c: Config, s: System, a: Action, id: string)
    requires Stuck(c, s, id) && Enabled(c, s, a) && ByRunner(a)
    ensures NextRun(c, s, a).entries[id] == s.entries[id] && NextRun(c, s, a).pc == s.pc
  {
  }

  // The scan does not take it.
  lemma StuckScan(c: Config, s: System, id: string)
    requires PlaceInv(s) && ProviderInv(c, s) && Stuck(c, s, id) && ScanReady(s)
    ensures id in NextScan(c, s).entries && NextScan(c, s).entries[id] == s.entries[id]
  {
    ScanStands(s);
    if s.pc.cls < CLASSES && !ClassEnded(s) && !Refuses(c, s) {
      var q := s.sched.Queue(ClassAt(s.pc.cls));
      assert Filed(ClassAt(s.pc.cls), q);
    }
  }

  lemma StuckDispatch(c: Config, s: System, a: Action, id: string)
    requires FullInv(c, s) && Stuck(c, s, id) && Enabled(c, s, a) && ByDispatcher(a)
    ensures id in NextDispatch(c, s, a).entries && NextDispatch(c, s, a).entries[id] == s.entries[id]
    ensures s.pc.Stopped? ==> NextDispatch(c, s, a).pc.Stopped?
  {
    hide Stuck, QueueInv, WaitInv, SemInv, ProviderInv, NextScan;
    assert EntryOk(s, id);
    assert id in s.entries && s.entries[id].place != Held by { StuckPlace(c, s, id); }
    if a.ScanStep? { StuckScan(c, s, id); }
  }

  lemma StuckPlace(c: Config, s: System, id: string)
    requires Stuck(c, s, id)
    ensures id in s.entries && s.entries[id].place != Held
  {
  }

  lemma StuckStep(c: Config, s: System, a: Action, id: string)
    requires FullInv(c, s) && Stuck(c, s, id)
    ensures Stuck(c, Step(c, s, a), id)
    ensures StuckTerminal(c, s, id) ==>
      StuckTerminal(c, Step(c, s, a), id) && Step(c, s, a).entries[id].state == s.entries[id].state
  {
    if Enabled(c, s, a) {
      if ByCaller(a) || ByWaiter(a) { StuckCaller(c, s, a, id); }
      else if ByDispatcher(a) { StuckDispatch(c, s, a, id); }
      else { StuckRun(c, s, a, id); }
    }
  }

  lemma {:induction false} StuckAlways(c: Config, s: System, acts: seq<Action>, id: string)
    requires FullInv(c, s) && Stuck(c, s, id)
    ensures Stuck(c, Run(c, s, acts), id)
    ensures StuckTerminal(c, s, id) ==> Run(c, s, acts).entries[id].state == s.entries[id].state
    decreases |acts|
  {
    if |acts| > 0 {
      StuckStep(c, s, acts[0], id);
      FullStep(c, s, acts[0]);
      StuckAlways(c, Step(c, s, acts[0]), acts[1..], id);
    }
  }

  lemma FailedDispatch(c: Config, s: System, a: Action, id: string)
    requires PlaceInv(s) && FailedForGood(s, id) && Enabled(c, s, a) && ByDispatcher(a)
    ensures FailedForGood(NextDispatch(c, s, a), id)
  {
    assert EntryOk(s, id);
    if a.ScanStep? { ScanStands(s); }
  }

  lemma FailedStep(c: Config, s: System, a: Action, id: string)
    requires FullInv(c, s) && FailedForGood(s, id)
    ensures FailedForGood(Step(c, s, a), id) || (Frozen(Step(c, s, a), id) && Step(c, s, a).entries[id].state == Failed)
  {
    hide PlaceInv, SlotInv, WaitInv;
    if Enabled(c, s, a) && ByDispatcher(a) { FailedDispatch(c, s, a, id); }
  }

  lemma {:induction false} FailedAlways(c: Config, s: System, acts: seq<Action>, id: string)
    requires FullInv(c, s) && FailedForGood(s, id)
    ensures id in Run(c, s, acts).entries && Run(c, s, acts).entries[id].state == Failed
    decreases |acts|
  {
    if |acts| > 0 {
      var t := Step(c, s, acts[0]);
      FailedStep(c, s, acts[0], id);
      FullStep(c, s, acts[0]);
      if FailedForGood(t, id) {
        FailedAlways(c, t, acts[1..], id);
      } else {
        FrozenAlways(c, t, acts[1..], id);
      }
    }
  }

  // ---------------------------------------------------------------- what can move

  lemma HeldGetsAcquired(c: Config, s: System, id: string) returns (u: System)
    requires FullInv(c, s) && IsAt(s, id, Held)
    ensures Leads(c, s, u) && IsAt(u, id, Held) && u.pc.Acquired? && u.pc.job.id == id
  {
    hide ProviderInv, WaitInv, QueueInv;
    assert EntryOk(s, id);
    if s.pc.Holding? {
      u := OneStep(c, s, Acquire);
    } else {
      LeadsRefl(c, s);
      u := s;
    }
  }

  lemma HeldGetsStarted(c: Config, s: System, id: string) returns (u: System)
    requires FullInv(c, s) && IsAt(s, id, Held)
    ensures Leads(c, s, u) && IsAt(u, id, InRun(Working)) && u.entries[id].state == Running
  {
    hide FullInv;
    var t := HeldGetsAcquired(c, s, id);
    LeadsStep(c, s, t, Launch);
    var v := Step(c, t, Launch);
    assert IsAt(v, id, InRun(Starting));
    LeadsStep(c, s, v, Start(id));
    u := Step(c, v, Start(id));
  }

  lemma QueuedGetsStarted(c: Config, s: System, id: string) returns (u: System)
    requires Inv(c, s) && CanStart(c, s, id)
    ensures Leads(c, s, u) && IsAt(u, id, InRun(Working)) && u.entries[id].state == Running
  {
    var h := DriveToHeld(c, s, id);
    u := HeldGetsStarted(c, h, id);
    LeadsAcross(c, s, h, u);
  }

  // A Dequeue under way comes to its end.
  lemma {:induction false} EndScan(c: Config, s: System, id: string) returns (u: System)
    requires Inv(c, s) && IsAt(s, id, Submitting(true)) && !s.pc.Stopped?
    ensures Leads(c, s, u) && Inv(c, u) && !u.pc.Scanning? && !u.pc.Stopped?
    ensures IsAt(u, id, Submitting(true)) && u.entries[id] == s.entries[id]
    decreases SweepsLeft(s.pc), ClassesLeft(s.pc), JobsLeft(s)
  {
    hide SlotInv, WaitInv, QueueInv, WakeInv;
    LeadsRefl(c, s);
    if s.pc.Scanning? {
      ScanStands(s);
      LeadsStep(c, s, s, ScanStep);
      InvStep(c, s, ScanStep);
      var t := Step(c, s, ScanStep);
      if t.pc.Scanning? {
        u := EndScan(c, t, id);
        LeadsAcross(c, s, t, u);
      } else {
        u := t;
      }
    } else {
      u := s;
    }
  }

  lemma SubmittedGetsStarted(c: Config, s: System, id: string) returns (u: System)
    requires Inv(c, s) && IsAt(s, id, Submitting(true)) && !NoChance(c, s, id)
    ensures Leads(c, s, u) && IsAt(u, id, InRun(Working)) && u.entries[id].state == Running
  {
    var t := EndScan(c, s, id);
    LeadsStep(c, s, t, Enter(id));
    InvStep(c, t, Enter(id));
    var v := Step(c, t, Enter(id));
    u := QueuedGetsStarted(c, v, id);
    LeadsAcross(c, s, v, u);
  }

  // ---------------------------------------------------------------- the exact conditions

  // A queued execution can be dispatched in some continuation exactly when the dispatcher has
  // not stopped, the class is one of the five, and the provider's limit (if any) is positive.
  // In particular the protocol has no deadlock that keeps it queued.
  lemma QueuedCanRunIff(c: Config, s: System, id: string)
    requires Reachable(c, s) && IsAt(s, id, InQueue)
    ensures (exists u :: Leads(c, s, u) && id in u.entries && u.entries[id].place.InRun?) <==> !NoChance(c, s, id)
  {
    ReachableInv(c, s);
    if NoChance(c, s, id) {
      forall u | Leads(c, s, u) ensures id in u.entries && !u.entries[id].place.InRun? {
        var acts :| Run(c, s, acts) == u;
        StuckAlways(c, s, acts, id);
      }
    } else {
      var u := QueuedGetsStarted(c, s, id);
    }
  }

  // Nobody will write the state any more that could change it.
  predicate Final(c: Config, s: System, id: string)
    requires id in s.entries
  {
    match s.entries[id].place
    case Submitting(marked) => marked && NoChance(c, s, id)
    case InQueue => NoChance(c, s, id)
    case Held => false
    case InRun(Starting) => false
    case InRun(Working) => false
    case InRun(Backoff) => false
    case InRun(Finished) => s.entries[id].state == Failed
    case _ => true
  }

  // A state that is not final can be left.
  lemma CanChange(c: Config, s: System, id: string) returns (u: System)
    requires Inv(c, s) && id in s.entries && Terminal(s.entries[id].state) && !Final(c, s, id)
    ensures Leads(c, s, u) && id in u.entries && u.entries[id].state != s.entries[id].state
  {
    hide PlaceInv, SlotInv, WaitInv, WakeInv;
    match s.entries[id].place
    case Held => u := HeldGetsStarted(c, s, id);
    case InQueue => u := QueuedGetsStarted(c, s, id);
    case Submitting(true) => u := SubmittedGetsStarted(c, s, id);
    case Submitting(false) => u := OneStep(c, s, Mark(id));
    case InRun(Starting) => u := OneStep(c, s, Start(id));
    case InRun(Working) => u := OneStep(c, s, Retry(id));
    case InRun(Backoff) => u := OneStep(c, s, Resume(id));
    case InRun(Finished) => u := OneStep(c, s, Finish(id, Failed));
  }

  lemma OneStep(c: Config, s: System, a: Action) returns (u: System)
    requires Enabled(c, s, a)
    ensures Leads(c, s, u) && u == Next(c, s, a)
  {
    LeadsRefl(c, s);
    LeadsStep(c, s, s, a);
    u := Step(c, s, a);
  }

  lemma FinalStays(c: Config, s: System, acts: seq<Action>, id: string)
    requires FullInv(c, s) && id in s.entries && Terminal(s.entries[id].state) && Final(c, s, id)
    ensures id in Run(c, s, acts).entries && Run(c, s, acts).entries[id].state == s.entries[id].state
  {
    if Settled(s.entries[id].place) {
      FrozenAlways(c, s, acts, id);
    } else if s.entries[id].place == InRun(Finished) {
      FailedAlways(c, s, acts, id);
    } else {
      StuckAlways(c, s, acts, id);
    }
  }

  // The terminal states are not absorbing. In every reachable state, a terminal state of an
  // execution stays in every continuation exactly when it is final in the sense above.
  lemma TerminalFinalIff(c: Config, s: System, id: string)
    requires Reachable(c, s) && id in s.entries && Terminal(s.entries[id].state)
    ensures (forall u :: Leads(c, s, u) ==> id in u.entries && u.entries[id].state == s.entries[id].state)
      <==> Final(c, s, id)
  {
    ReachableInv(c, s);
    if Final(c, s, id) {
      forall u | Leads(c, s, u) ensures id in u.entries && u.entries[id].state == s.entries[id].state {
        var acts :| Run(c, s, acts) == u;
        FinalStays(c, s, acts, id);
      }
    } else {
      var u := CanChange(c, s, id);
    }
  }

  lemma CancelledFinal(c: Config, s: System, t: System, id: string)
    requires id in s.entries && id in t.entries && t.pc == s.pc && t.entries[id].job == s.entries[id].job
      && t.entries[id].state == Cancelled
    requires t.entries[id].place == if s.entries[id].place == InQueue then Removed else s.entries[id].place
    ensures Final(c, t, id) <==> (s.entries[id].place == InQueue || Settled(s.entries[id].place)
                                  || (s.entries[id].place == Submitting(true) && NoChance(c, s, id)))
  {
  }

  // For Cancel: what it wrote stays exactly when Remove succeeded, or the run had already
  // passed its last write, or the execution was about to be queued with no chance to run.
  lemma CancelFinalIff(c: Config, s: System, id: string, n: nat)
    requires Reachable(c, s) && Enabled(c, s, Cancel(id, n))
    ensures var t := Step(c, s, Cancel(id, n));
      var p := ClassOf(s.entries[id].job);
      (forall u :: Leads(c, t, u) ==> id in u.entries && u.entries[id].state == Cancelled)
      <==> (FirstWithId(s.sched.Queue(p), id) < |s.sched.Queue(p)| || Settled(s.entries[id].place)
            || (s.entries[id].place == Submitting(true) && NoChance(c, s, id)))
  {
    hide Final, NoChance, Settled, SlotInv, WaitInv;
    ReachableFull(c, s);
    RemoveSucceedsIff(s, id);
    var t := Step(c, s, Cancel(id, n));
    LeadsStep(c, INIT, s, Cancel(id, n));
    TerminalFinalIff(c, t, id);
    CancelledFinal(c, s, t, id);
  }
}
