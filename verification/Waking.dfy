// Which waiters can still be woken. Wait checks the state and registers its channel in two
// steps, so a channel can miss the notification it waits for.

module Waking {
  import opened Option
  import opened Collections
  import opened Executions
  import opened Scheduler
  import opened Engine
  import opened Places
  import opened Slots
  import opened Waiting
  import opened Cancellation
  import opened Progress
  import opened Finality

  // ---------------------------------------------------------------- the condition

  // A notifier has taken the channel, or is about to take the list of its execution.
  ghost predicate Awaited(s: System, ch: nat)
    requires ch in s.waits.channels
  {
    s.waits.channels[ch].at.Claimed? || SummonedFor(s, s.waits.channels[ch].id)
  }

  ghost predicate SummonedFor(s: System, id: string) {
    exists n :: n in s.waits.notifiers && s.waits.notifiers[n] == Summoned(id)
  }

  // The execution can still be cancelled, or can still get to the end of a run.
  predicate WillNotify(c: Config, s: System, id: string)
    requires id in s.entries
  {
    Cancellable(s.entries[id].state) || match s.entries[id].place
      case Submitting(marked) => !marked || !NoChance(c, s, id)
      case InQueue => !NoChance(c, s, id)
      case Held => true
      case InRun(_) => true
      case Removed => false
      case Done => false
  }

  ghost predicate CanWake(c: Config, s: System, ch: nat)
    requires ch in s.waits.channels && s.waits.channels[ch].id in s.entries
  {
    Awaited(s, ch) || WillNotify(c, s, s.waits.channels[ch].id)
  }

  // ---------------------------------------------------------------- asleep for good

  predicate Resting(c: Config, s: System, id: string) { id in s.entries && !WillNotify(c, s, id) }

  ghost predicate Asleep(c: Config, s: System, ch: nat) {
    && ch in s.waits.channels && (s.waits.channels[ch].at.Checked? || s.waits.channels[ch].at.Listed?)
    && Resting(c, s, s.waits.channels[ch].id) && !SummonedFor(s, s.waits.channels[ch].id)
  }

  lemma RestingCaller(c: Config, s: System, a: Action, id: string)
    requires Resting(c, s, id) && Enabled(c, s, a) && (ByCaller(a) || ByWaiter(a))
    ensures Resting(c, Next(c, s, a), id)
  {
  }

  lemma RestingRun(c: Config, s: System, a: Action, id: string)
    requires Resting(c, s, id) && Enabled(c, s, a) && ByRunner(a)
    ensures Resting(c, NextRun(c, s, a), id) && a.id != id
  {
  }

  lemma RestingDispatch(c: Config, s: System, a: Action, id: string)
    requires FullInv(c, s) && Resting(c, s, id) && Enabled(c, s, a) && ByDispatcher(a)
    ensures Resting(c, NextDispatch(c, s, a), id)
  {
    hide SlotInv, WaitInv;
    if Stuck(c, s, id) {
      StuckDispatch(c, s, a, id);
    } else {
      assert EntryOk(s, id);
      if a.ScanStep? { ScanStands(s); }
    }
  }

  lemma AsleepWait(c: Config, s: System, a: Action, ch: nat)
    requires WaitInv(s) && Asleep(c, s, ch) && Enabled(c, s, a) && ByWaiter(a)
    ensures var t := NextWait(c, s, a);
      && ch in t.waits.channels && t.waits.channels[ch].id == s.waits.channels[ch].id
      && (t.waits.channels[ch].at.Checked? || t.waits.channels[ch].at.Listed?)
      && !SummonedFor(t, s.waits.channels[ch].id)
  {
    if a.Claim? {
      var other := s.waits.notifiers[a.n].id;
      assert ListOk(s, other);
      var list := s.entries[other].waiting;
      forall i | 0 <= i < |list| ensures list[i] != ch { assert IsChannel(s, list[i], other, Listed); }
    } else if a.CloseNext? {
      assert NotifierOk(s, a.n);
      assert IsChannel(s, s.waits.notifiers[a.n].todo[0], s.waits.notifiers[a.n].id, Claimed(a.n));
    }
  }

  lemma AsleepOther(c: Config, s: System, a: Action, ch: nat)
    requires Asleep(c, s, ch) && Enabled(c, s, a) && !ByWaiter(a)
    ensures Next(c, s, a).waits.channels == s.waits.channels && !SummonedFor(Next(c, s, a), s.waits.channels[ch].id)
  {
    if ByRunner(a) { RestingRun(c, s, a, s.waits.channels[ch].id); }
  }

  lemma AsleepStays(c: Config, s: System, a: Action, ch: nat)
    requires FullInv(c, s) && Asleep(c, s, ch)
    ensures Asleep(c, Step(c, s, a), ch)
  {
    hide SummonedFor, Resting, CoreInv, WaitInv, Enabled;
    var id := s.waits.channels[ch].id;
    if Enabled(c, s, a) {
      if ByCaller(a) || ByWaiter(a) { RestingCaller(c, s, a, id); }
      else if ByDispatcher(a) { RestingDispatch(c, s, a, id); }
      else { RestingRun(c, s, a, id); }
      if ByWaiter(a) { AsleepWait(c, s, a, ch); } else { AsleepOther(c, s, a, ch); }
    }
  }

  lemma {:induction false} AsleepForever(c: Config, s: System, ch: nat, acts: seq<Action>)
    requires FullInv(c, s) && Asleep(c, s, ch)
    ensures var u := Run(c, s, acts); ch in u.waits.channels && u.waits.channels[ch].closes == 0
    decreases |acts|
  {
    if |acts| > 0 {
      AsleepStays(c, s, acts[0], ch);
      FullStep(c, s, acts[0]);
      AsleepForever(c, Step(c, s, acts[0]), ch, acts[1..]);
    } else {
      assert ChannelOk(s, ch);
    }
  }

  // ---------------------------------------------------------------- waking up

  // A channel never goes away and keeps its execution.
  lemma {:induction false} ChannelKept(c: Config, s: System, acts: seq<Action>, ch: nat)
    requires ch in s.waits.channels
    ensures ch in Run(c, s, acts).waits.channels && Run(c, s, acts).waits.channels[ch].id == s.waits.channels[ch].id
    decreases |acts|
  {
    if |acts| > 0 {
      ChannelStep(c, s, acts[0], ch);
      ChannelKept(c, Step(c, s, acts[0]), acts[1..], ch);
    }
  }

  lemma ChannelStep(c: Config, s: System, a: Action, ch: nat)
    requires ch in s.waits.channels
    ensures ch in Step(c, s, a).waits.channels && Step(c, s, a).waits.channels[ch].id == s.waits.channels[ch].id
  {
  }

  lemma InvLeads(c: Config, s: System, t: System, ch: nat)
    requires Inv(c, s) && ch in s.waits.channels && Leads(c, s, t)
    ensures Inv(c, t) && ch in t.waits.channels && t.waits.channels[ch].id == s.waits.channels[ch].id
  {
    var acts :| Run(c, s, acts) == t;
    ChannelKept(c, s, acts, ch);
    InvAlways(c, s, acts);
  }

  lemma {:induction false} InvAlways(c: Config, s: System, acts: seq<Action>)
    requires Inv(c, s)
    ensures Inv(c, Run(c, s, acts))
    decreases |acts|
  {
    hide Inv;
    if |acts| > 0 {
      InvStep(c, s, acts[0]);
      InvAlways(c, Step(c, s, acts[0]), acts[1..]);
    }
  }

  predicate IsClosed(s: System, ch: nat) { ch in s.waits.channels && s.waits.channels[ch].closes == 1 }

  // A notifier works through its list until the channel is closed.
  lemma {:induction false} CloseClaimed(c: Config, s: System, ch: nat, n: nat, k: nat) returns (u: System)
    requires Inv(c, s) && ch in s.waits.channels && n in s.waits.notifiers && s.waits.notifiers[n].Closing?
    requires k < |s.waits.notifiers[n].todo| && s.waits.notifiers[n].todo[k] == ch
    ensures Leads(c, s, u) && IsClosed(u, ch)
    decreases k
  {
    hide CoreInv, Wakeups.WakeInv;
    var todo := s.waits.notifiers[n].todo;
    assert NotifierOk(s, n);
    assert IsChannel(s, todo[0], s.waits.notifiers[n].id, Claimed(n));
    var t := OneStep(c, s, CloseNext(n));
    InvLeads(c, s, t, ch);
    if k == 0 {
      u := t;
      assert ChannelOk(t, ch);
    } else {
      assert t.waits.notifiers[n] == Closing(s.waits.notifiers[n].id, todo[1..]);
      u := CloseClaimed(c, t, ch, n, k - 1);
      LeadsAcross(c, s, t, u);
    }
  }

  // Once a notifier is summoned for its execution the channel can be closed, if it is not yet.
  lemma CloseSummoned(c: Config, s: System, ch: nat) returns (u: System)
    requires Inv(c, s) && ch in s.waits.channels && Awaited(s, ch)
    ensures Leads(c, s, u) && IsClosed(u, ch)
  {
    hide CoreInv, Wakeups.WakeInv;
    assert ChannelOk(s, ch);
    if s.waits.channels[ch].at.Closed? {
      LeadsRefl(c, s);
      u := s;
    } else if s.waits.channels[ch].at.Claimed? {
      var n := s.waits.channels[ch].at.n;
      var k :| 0 <= k < |s.waits.notifiers[n].todo| && s.waits.notifiers[n].todo[k] == ch;
      u := CloseClaimed(c, s, ch, n, k);
    } else {
      var n :| n in s.waits.notifiers && s.waits.notifiers[n] == Summoned(s.waits.channels[ch].id);
      u := CloseListed(c, s, ch, n);
    }
  }

  lemma CloseListed(c: Config, s: System, ch: nat, n: nat) returns (u: System)
    requires Inv(c, s) && ch in s.waits.channels
      && (s.waits.channels[ch].at.Checked? || s.waits.channels[ch].at.Listed?)
    requires n in s.waits.notifiers && s.waits.notifiers[n] == Summoned(s.waits.channels[ch].id)
    ensures Leads(c, s, u) && IsClosed(u, ch)
  {
    hide CoreInv, Wakeups.WakeInv;
    var id := s.waits.channels[ch].id;
    assert ChannelOk(s, ch);
    LeadsRefl(c, s);
    var t := s;
    if s.waits.channels[ch].at.Checked? { t := OneStep(c, s, Register(ch)); }
    InvLeads(c, s, t, ch);
    assert ChannelOk(t, ch);
    var v := OneStep(c, t, Claim(n));
    InvLeads(c, t, v, ch);
    LeadsAcross(c, s, t, v);
    var list := t.entries[id].waiting;
    var k :| 0 <= k < |list| && list[k] == ch;
    assert v.waits.notifiers[n] == Closing(id, list);
    u := CloseClaimed(c, v, ch, n, k);
    LeadsAcross(c, s, v, u);
  }

  // A Dequeue under way comes to its end, whatever it takes.
  lemma {:induction false} ScanEnds(c: Config, s: System, id: string) returns (u: System)
    requires Inv(c, s) && id in s.entries
    ensures Leads(c, s, u) && !u.pc.Scanning? && id in u.entries && u.entries[id].state == s.entries[id].state
    decreases SweepsLeft(s.pc), ClassesLeft(s.pc), JobsLeft(s)
  {
    hide SlotInv, WaitInv, QueueInv, Wakeups.WakeInv;
    LeadsRefl(c, s);
    u := s;
    if s.pc.Scanning? {
      ScanStands(s);
      InvStep(c, s, ScanStep);
      var t := OneStep(c, s, ScanStep);
      u := t;
      if t.pc.Scanning? {
        u := ScanEnds(c, t, id);
        LeadsAcross(c, s, t, u);
      }
    }
  }

  lemma CancelSummons(c: Config, s: System, id: string) returns (u: System)
    requires Inv(c, s) && id in s.entries && Cancellable(s.entries[id].state)
    ensures Leads(c, s, u) && SummonedFor(u, id)
  {
    hide Inv;
    var t := ScanEnds(c, s, id);
    var n := FreshNumber(t.waits.notifiers, 0);
    u := OneStep(c, t, Cancel(id, n));
    assert u.waits.notifiers[n] == Summoned(id);
    LeadsAcross(c, s, t, u);
  }

  lemma {:induction false} RunSummons(c: Config, s: System, id: string) returns (u: System)
    requires Inv(c, s) && id in s.entries && s.entries[id].place.InRun?
    ensures Leads(c, s, u) && SummonedFor(u, id)
    decreases Effort(s.entries[id].place)
  {
    hide Inv;
    var a := Drain(c, s, id);
    var t := OneStep(c, s, a);
    if a.SignalDone? {
      u := t;
      assert t.waits.notifiers[a.n] == Summoned(id);
    } else {
      InvStep(c, s, a);
      DrainStays(c, s, a);
      u := RunSummons(c, t, id);
      LeadsAcross(c, s, t, u);
    }
  }

  lemma DrainStays(c: Config, s: System, a: Action)
    requires Enabled(c, s, a) && ByRunner(a) && !a.SignalDone?
    ensures a.id in Next(c, s, a).entries && Next(c, s, a).entries[a.id].place.InRun?
    ensures !a.Retry? && !a.Resume? && (a.Finish? ==> !IsAt(s, a.id, InRun(Finished))) ==>
      Effort(Next(c, s, a).entries[a.id].place) < Effort(s.entries[a.id].place)
  {
  }

  // An execution that will still notify can be brought to summon a notifier.
  lemma Summons(c: Config, s: System, id: string) returns (u: System)
    requires Inv(c, s) && id in s.entries && WillNotify(c, s, id)
    ensures Leads(c, s, u) && SummonedFor(u, id)
  {
    if Cancellable(s.entries[id].state) {
      u := CancelSummons(c, s, id);
    } else if s.entries[id].place == Submitting(false) {
      var t := OneStep(c, s, Mark(id));
      InvStep(c, s, Mark(id));
      u := CancelSummons(c, t, id);
      LeadsAcross(c, s, t, u);
    } else {
      var t := Starts(c, s, id);
      var acts :| Run(c, s, acts) == t;
      InvAlways(c, s, acts);
      u := RunSummons(c, t, id);
      LeadsAcross(c, s, t, u);
    }
  }

  lemma Starts(c: Config, s: System, id: string) returns (t: System)
    requires Inv(c, s) && id in s.entries && WillNotify(c, s, id)
    requires !Cancellable(s.entries[id].state) && s.entries[id].place != Submitting(false)
    ensures Leads(c, s, t) && id in t.entries && t.entries[id].place.InRun?
  {
    hide FullInv, Wakeups.WakeInv;
    LeadsRefl(c, s);
    match s.entries[id].place
    case InRun(_) => t := s;
    case Held => t := HeldGetsStarted(c, s, id);
    case InQueue => t := QueuedGetsStarted(c, s, id);
    case Submitting(_) => t := SubmittedGetsStarted(c, s, id);
  }

  // In every reachable state, a channel that is not closed yet is closed in some continuation
  // exactly when a notifier has it or is summoned for its execution, or that execution can
  // still be cancelled or run. All other waiters wait forever.
  lemma WaiterWakesIff(c: Config, s: System, ch: nat)
    requires Reachable(c, s) && ch in s.waits.channels && !s.waits.channels[ch].at.Closed?
    ensures s.waits.channels[ch].id in s.entries
    ensures (exists u :: Leads(c, s, u) && IsClosed(u, ch)) <==> CanWake(c, s, ch)
  {
    ReachableInv(c, s);
    assert ChannelOk(s, ch);
    var id := s.waits.channels[ch].id;
    if Awaited(s, ch) {
      var u := CloseSummoned(c, s, ch);
    } else if WillNotify(c, s, id) {
      var t := Summons(c, s, id);
      InvLeads(c, s, t, ch);
      var u := CloseSummoned(c, t, ch);
      LeadsAcross(c, s, t, u);
    } else {
      forall u | Leads(c, s, u) ensures !IsClosed(u, ch) {
        var acts :| Run(c, s, acts) == u;
        AsleepForever(c, s, ch, acts);
      }
    }
  }

  // ---------------------------------------------------------------- witnesses

  lemma MarkFirst(c: Config) returns (s: System)
    requires ValidConfig(c) && c.queueSize > 0
    ensures Reachable(c, s)
    ensures s.entries == map["exec-1" := Entry(SAMPLE, Submitting(true), ExecState.Queued, false, 0, [])]
    ensures s.pc == Parked && s.waits == Waits(map[], map[0 := Waiter("exec-1", Checked, 0)])
  {
    var r := AdmitFirst(c);
    ReachStep(c, r, CheckState(0, "exec-1"));
    var t := Step(c, r, CheckState(0, "exec-1"));
    ReachStep(c, t, Mark("exec-1"));
    s := Step(c, t, Mark("exec-1"));
  }

  lemma QueueFirst(c: Config) returns (s: System)
    requires ValidConfig(c) && c.queueSize > 0
    ensures Reachable(c, s) && IsAt(s, "exec-1", InQueue) && s.entries["exec-1"].state == Queued
      && s.entries["exec-1"].waiting == []
    ensures s.pc == Parked && s.waits == Waits(map[], map[0 := Waiter("exec-1", Checked, 0)])
  {
    var t := MarkFirst(c);
    ReachStep(c, t, Enter("exec-1"));
    s := Step(c, t, Enter("exec-1"));
  }

  lemma ClaimFirst(c: Config) returns (s: System)
    requires ValidConfig(c) && c.queueSize > 0
    ensures Reachable(c, s) && IsAt(s, "exec-1", Removed)
    ensures IsAt(s, "exec-1", Removed) && s.entries["exec-1"].state == Cancelled
    ensures s.waits == Waits(map[0 := Closing("exec-1", [])], map[0 := Waiter("exec-1", Checked, 0)])
  {
    var r := QueueFirst(c);
    ReachStep(c, r, Cancel("exec-1", 0));
    var t := Step(c, r, Cancel("exec-1", 0));
    assert t.entries["exec-1"] == r.entries["exec-1"].(place := Removed, state := Cancelled, hasResult := true);
    assert t.waits.notifiers == map[0 := Summoned("exec-1")];
    ReachStep(c, t, Claim(0));
    s := Step(c, t, Claim(0));
    assert s.waits.channels == t.waits.channels;
  }

  // Such a waiter exists: it checks the state, the execution is cancelled and its waiters are
  // notified, and only then the channel is registered.
  lemma LateWaiterWitness(c: Config) returns (s: System)
    requires ValidConfig(c) && c.queueSize > 0
    ensures Reachable(c, s) && Asleep(c, s, 0) && s.waits.channels[0].at == Listed
    ensures IsAt(s, "exec-1", Removed) && s.entries["exec-1"].state == Cancelled
  {
    var r := ClaimFirst(c);
    ReachStep(c, r, Dismiss(0));
    var t := Step(c, r, Dismiss(0));
    assert t.waits.notifiers == map[];
    ReachStep(c, t, Register(0));
    s := Step(c, t, Register(0));
  }

  // Being late is not needed. A provider whose result reports an error and the state RUNNING
  // ends a run in that state; whoever waits afterwards passes the check and is never woken.
  lemma RunningForeverWitness(c: Config, s: System, id: string, ch: nat) returns (u: System)
    requires Reachable(c, s) && IsAt(s, id, InRun(Working)) && s.entries[id].waiting == []
    requires s.waits.notifiers == map[] && ch !in s.waits.channels
    ensures Leads(c, s, u) && Asleep(c, u, ch) && IsAt(u, id, Done) && u.entries[id].state == Running
  {
    var t := EndsRunning(c, s, id);
    var v := OneStep(c, t, CheckState(ch, id));
    u := OneStep(c, v, Register(ch));
    LeadsAcross(c, s, t, v);
    LeadsAcross(c, s, v, u);
  }

  lemma EndsRunning(c: Config, s: System, id: string) returns (t: System)
    requires Reachable(c, s) && IsAt(s, id, InRun(Working)) && s.entries[id].waiting == [] && s.waits.notifiers == map[]
    ensures Leads(c, s, t) && IsAt(t, id, Done) && t.entries[id].state == Running && t.waits == s.waits
  {
    hide Reachable;
    var d := WritesRunning(c, s, id);
    var e := OneStep(c, d, SignalDone(id, 0));
    LeadsAcross(c, s, d, e);
    var f := OneStep(c, e, Claim(0));
    LeadsAcross(c, s, e, f);
    assert f.waits.channels == s.waits.channels;
    t := OneStep(c, f, Dismiss(0));
    LeadsAcross(c, s, f, t);
    assert t.waits.notifiers == map[];
  }

  lemma WritesRunning(c: Config, s: System, id: string) returns (t: System)
    requires Reachable(c, s) && IsAt(s, id, InRun(Working))
    ensures Leads(c, s, t) && IsAt(t, id, InRun(ProviderFree)) && t.waits == s.waits
    ensures t.entries[id].state == Running && t.entries[id].waiting == s.entries[id].waiting
  {
    ReachableInv(c, s);
    SlotInUse(c, s, id);
    var a := OneStep(c, s, Finish(id, Running));
    var b := OneStep(c, a, FreeSlot(id));
    LeadsAcross(c, s, a, b);
    t := OneStep(c, b, FreeProvider(id));
    LeadsAcross(c, s, b, t);
  }
}
