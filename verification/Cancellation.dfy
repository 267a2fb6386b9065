// What Cancel and notifyWaiters promise about every continuation, and where the tempting
// stronger claims stop.

module Cancellation {
  import opened Option
  import opened Collections
  import opened Executions
  import opened Scheduler
  import opened Engine
  import opened Places
  import opened Slots
  import opened Waiting

  // ---------------------------------------------------------------- notify

  // The channel was taken by notifier n, which still has to close it, or it is closed.
  ghost predicate TakenBy(s: System, ch: nat, n: nat) {
    ch in s.waits.channels && (s.waits.channels[ch].at == Claimed(n) || s.waits.channels[ch].at == Closed)
  }

  lemma TakenWait(c: Config, s: System, a: Action, ch: nat, n: nat)
    requires WaitInv(s) && TakenBy(s, ch, n) && Enabled(c, s, a) && ByWaiter(a)
    ensures TakenBy(NextWait(c, s, a), ch, n)
  {
    if a.Claim? {
      var id := s.waits.notifiers[a.n].id;
      var list := s.entries[id].waiting;
      assert ListOk(s, id);
      forall i | 0 <= i < |list| ensures list[i] != ch { assert IsChannel(s, list[i], id, Listed); }
    } else if a.CloseNext? {
      assert NotifierOk(s, a.n);
    }
  }

  lemma TakenStays(c: Config, s: System, a: Action, ch: nat, n: nat)
    requires FullInv(c, s) && TakenBy(s, ch, n)
    ensures TakenBy(Step(c, s, a), ch, n)
  {
    hide CoreInv, WaitInv;
    if Enabled(c, s, a) && ByWaiter(a) { TakenWait(c, s, a, ch, n); }
  }

  lemma {:induction false} TakenAlways(c: Config, s: System, acts: seq<Action>, ch: nat, n: nat)
    requires FullInv(c, s) && TakenBy(s, ch, n)
    ensures TakenBy(Run(c, s, acts), ch, n) && FullInv(c, Run(c, s, acts))
    decreases |acts|
  {
    if |acts| > 0 {
      TakenStays(c, s, acts[0], ch, n);
      FullStep(c, s, acts[0]);
      TakenAlways(c, Step(c, s, acts[0]), acts[1..], ch, n);
    }
  }

  // Every waiter registered when a notifier takes the list is closed by it, exactly once: in
  // any continuation it is either still on that notifier's list or closed, and it is closed
  // when the notifier is gone.
  lemma NotifyClosesRegistered(c: Config, s: System, n: nat, ch: nat, u: System)
    requires Reachable(c, s) && Enabled(c, s, Claim(n))
    requires IsChannel(s, ch, s.waits.notifiers[n].id, Listed)
    requires Leads(c, Step(c, s, Claim(n)), u)
    ensures ch in u.waits.channels
    ensures u.waits.channels[ch].closes == 1
         || (u.waits.channels[ch].closes == 0 && n in u.waits.notifiers && u.waits.notifiers[n].Closing?
           && ch in u.waits.notifiers[n].todo)
    ensures n !in u.waits.notifiers ==> u.waits.channels[ch].closes == 1
  {
    ReachableFull(c, s);
    assert ChannelOk(s, ch);
    FullStep(c, s, Claim(n));
    var t := Step(c, s, Claim(n));
    assert TakenBy(t, ch, n);
    var acts :| Run(c, t, acts) == u;
    TakenAlways(c, t, acts, ch, n);
    assert ChannelOk(u, ch);
  }

  // ---------------------------------------------------------------- settled executions

  // No goroutine will write the state of the execution any more, unless Cancel finds it
  // non-terminal.
  predicate Settled(p: Place) {
    p.Removed? || p.Done? || (p.InRun? && (p.phase.SlotFree? || p.phase.ProviderFree?))
  }

  predicate Frozen(s: System, id: string) {
    id in s.entries && Settled(s.entries[id].place) && Terminal(s.entries[id].state)
  }

  // An action leaves a frozen execution frozen, in its state; a removed one stays removed.
  predicate SameFate(s: System, t: System, id: string)
    requires id in s.entries
  {
    && Frozen(t, id) && t.entries[id].state == s.entries[id].state
    && (s.entries[id].place.Removed? ==> t.entries[id].place.Removed?)
    && (s.entries[id].place.Done? ==> t.entries[id].place.Done?)
  }

  lemma FrozenCaller(c: Config, s: System, a: Action, id: string)
    requires Frozen(s, id) && Enabled(c, s, a) && (ByCaller(a) || ByWaiter(a))
    ensures SameFate(s, Next(c, s, a), id)
  {
  }

  lemma FrozenDispatch(c: Config, s: System, a: Action, id: string)
    requires PlaceInv(s) && Frozen(s, id) && Enabled(c, s, a) && ByDispatcher(a)
    ensures SameFate(s, NextDispatch(c, s, a), id)
  {
    assert EntryOk(s, id);
    if a.ScanStep? { ScanStands(s); }
  }

  lemma FrozenRun(c: Config, s: System, a: Action, id: string)
    requires Frozen(s, id) && Enabled(c, s, a) && ByRunner(a)
    ensures SameFate(s, NextRun(c, s, a), id)
  {
    hide Load;
  }

  lemma FrozenStep(c: Config, s: System, a: Action, id: string)
    requires PlaceInv(s) && Frozen(s, id)
    ensures SameFate(s, Step(c, s, a), id)
  {
    if Enabled(c, s, a) {
      if ByCaller(a) || ByWaiter(a) { FrozenCaller(c, s, a, id); }
      else if ByDispatcher(a) { FrozenDispatch(c, s, a, id); }
      else { FrozenRun(c, s, a, id); }
    }
  }

  lemma {:induction false} FrozenAlways(c: Config, s: System, acts: seq<Action>, id: string)
    requires FullInv(c, s) && Frozen(s, id)
    ensures SameFate(s, Run(c, s, acts), id)
    decreases |acts|
  {
    if |acts| > 0 {
      FrozenStep(c, s, acts[0], id);
      FullStep(c, s, acts[0]);
      FrozenAlways(c, Step(c, s, acts[0]), acts[1..], id);
    }
  }

  // ---------------------------------------------------------------- Cancel

  // Cancel before dispatch is final: if Remove succeeds inside Cancel, the execution is never
  // dispatched and stays CANCELLED, with a result, in every continuation.
  lemma CancelBeforeDispatchIsFinal(c: Config, s: System, id: string, n: nat, u: System)
    requires Reachable(c, s) && Enabled(c, s, Cancel(id, n))
    requires var p := ClassOf(s.entries[id].job); FirstWithId(s.sched.Queue(p), id) < |s.sched.Queue(p)|
    requires Leads(c, Step(c, s, Cancel(id, n)), u)
    ensures id in u.entries && u.entries[id].place == Removed
    ensures u.entries[id].state == Cancelled && u.entries[id].hasResult
    ensures u.entries[id].releases == 0 && forall p, i :: 0 <= i < |u.sched.Queue(p)| ==> u.sched.Queue(p)[i].id != id
  {
    ReachableFull(c, s);
    RemoveSucceedsIff(s, id);
    var t := Step(c, s, Cancel(id, n));
    FullStep(c, s, Cancel(id, n));
    var acts :| Run(c, t, acts) == u;
    FrozenAlways(c, t, acts, id);
    FullAlways(c, t, acts);
    assert ResultOk(u, id) && ReleasesOk(u.entries[id]);
    forall p, i | 0 <= i < |u.sched.Queue(p)| ensures u.sched.Queue(p)[i].id != id {
      assert QueueOk(u.entries, u.sched.Queue(p));
    }
  }

  // ---------------------------------------------------------------- witnesses

  const SAMPLE := Job("exec-1", Normal, "local")

  lemma AdmitFirst(c: Config) returns (s: System)
    requires ValidConfig(c) && c.queueSize > 0
    ensures Reachable(c, s)
    ensures s == INIT.(entries := map["exec-1" := Entry(SAMPLE, Submitting(false), Pending, false, 0, [])])
  {
    LeadsRefl(c, INIT);
    assert INIT.sched.Depth() == 0;
    ReachStep(c, INIT, Admit(SAMPLE));
    s := Step(c, INIT, Admit(SAMPLE));
  }

  // A Cancel that meets a submitter before its QUEUED write is undone by that write: CANCELLED,
  // with its waiters already notified, turns back into QUEUED.
  lemma CancelUndoneWitness(c: Config) returns (s: System, t: System)
    requires ValidConfig(c) && c.queueSize > 0
    ensures Reachable(c, s) && "exec-1" in s.entries && s.entries["exec-1"].state == Cancelled
    ensures t == Step(c, s, Mark("exec-1")) && "exec-1" in t.entries && t.entries["exec-1"].state == Queued
  {
    var r := AdmitFirst(c);
    ReachStep(c, r, Cancel("exec-1", 0));
    s := Step(c, r, Cancel("exec-1", 0));
    t := Step(c, s, Mark("exec-1"));
  }
}
