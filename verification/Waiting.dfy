// Waiters and cancellation over all interleavings.

module Waiting {
  import opened Option
  import opened Collections
  import opened Executions
  import opened Scheduler
  import opened Engine
  import opened Places
  import opened Slots

  ghost predicate Distinct(s: seq<nat>) {
    forall i, k :: 0 <= i < k < |s| ==> s[i] != s[k]
  }

  // The run has written its result for good (unless the recovery block rewrites it).
  predicate PastResult(p: Place) {
    p.Removed? || p.Done? || (p.InRun? && (p.phase.Finished? || p.phase.SlotFree? || p.phase.ProviderFree?))
  }

  predicate ResultOk(s: System, id: string) {
    id in s.entries && (Terminal(s.entries[id].state) || PastResult(s.entries[id].place)) ==> s.entries[id].hasResult
  }

  predicate IsChannel(s: System, ch: nat, id: string, at: ChannelAt) {
    ch in s.waits.channels && s.waits.channels[ch].id == id && s.waits.channels[ch].at == at
  }

  // The waiters registered under an ID are distinct channels of that execution.
  ghost predicate ListOk(s: System, id: string) {
    id in s.entries ==>
      && Distinct(s.entries[id].waiting)
      && forall i :: 0 <= i < |s.entries[id].waiting| ==> IsChannel(s, s.entries[id].waiting[i], id, Listed)
  }

  // A notifier works for an execution that has a result, on distinct channels it has taken.
  ghost predicate NotifierOk(s: System, n: nat) {
    n in s.waits.notifiers ==>
      var id := s.waits.notifiers[n].id;
      && id in s.entries && s.entries[id].hasResult
      && (s.waits.notifiers[n].Closing? ==>
            var todo := s.waits.notifiers[n].todo;
            Distinct(todo) && forall i :: 0 <= i < |todo| ==> IsChannel(s, todo[i], id, Claimed(n)))
  }

  // A channel was closed once if it is closed and never otherwise, and it is where it says.
  ghost predicate ChannelOk(s: System, ch: nat) {
    ch in s.waits.channels ==>
      var w := s.waits.channels[ch];
      && w.id in s.entries
      && w.closes == One(w.at.Closed?)
      && (w.at.Listed? ==> ch in s.entries[w.id].waiting)
      && (w.at.Claimed? ==>
            w.at.n in s.waits.notifiers && s.waits.notifiers[w.at.n].Closing? && ch in s.waits.notifiers[w.at.n].todo)
      && (w.at.Closed? ==> s.entries[w.id].hasResult)
  }

  ghost predicate WaitInv(s: System) {
    && (forall id :: ResultOk(s, id))
    && (forall id :: ListOk(s, id))
    && (forall n :: NotifierOk(s, n))
    && (forall ch :: ChannelOk(s, ch))
  }

  // ---------------------------------------------------------------- steps outside notifyWaiters and Wait

  // t differs from s in one entry, which keeps its waiters and any result it had, and at most
  // in one new notifier, summoned for that entry.
  ghost predicate Plain(s: System, t: System, id: string) {
    && (t.entries == s.entries
        || (id in t.entries && t.entries == s.entries[id := t.entries[id]]
            && t.entries[id].waiting == (if id in s.entries then s.entries[id].waiting else [])
            && (id in s.entries && s.entries[id].hasResult ==> t.entries[id].hasResult)))
    && (t.waits == s.waits
        || exists n ::
             n !in s.waits.notifiers && t.waits == Summon(s.waits, n, id) && id in t.entries && t.entries[id].hasResult)
  }

  lemma PlainKeeps(s: System, t: System, id: string)
    requires WaitInv(s) && Plain(s, t, id) && ResultOk(t, id)
    ensures WaitInv(t)
  {
    forall x ensures ResultOk(t, x) { assert ResultOk(s, x); }
    forall x ensures ListOk(t, x) { assert ListOk(s, x); }
    forall n ensures NotifierOk(t, n) { assert NotifierOk(s, n); }
    forall ch ensures ChannelOk(t, ch) { assert ChannelOk(s, ch); }
  }

  lemma PlainCaller(c: Config, s: System, a: Action) returns (id: string)
    requires Enabled(c, s, a) && ByCaller(a) && forall x :: ResultOk(s, x)
    ensures Plain(s, NextCaller(c, s, a), id) && ResultOk(NextCaller(c, s, a), id)
  {
    id := if a.Admit? then a.job.id else a.id;
    assert ResultOk(s, id);
    var t := NextCaller(c, s, a);
    if a.Cancel? { assert a.n !in s.waits.notifiers && t.waits == Summon(s.waits, a.n, id); }
  }

  lemma PlainDispatch(c: Config, s: System, a: Action) returns (id: string)
    requires Enabled(c, s, a) && ByDispatcher(a) && forall x :: ResultOk(s, x)
    ensures Plain(s, NextDispatch(c, s, a), id) && ResultOk(NextDispatch(c, s, a), id)
  {
    id := if a.Launch? then s.pc.job.id
      else if a.ScanStep? && s.pc.cls < CLASSES && !ClassEnded(s) then s.sched.Queue(ClassAt(s.pc.cls))[s.pc.pos].id
      else "";
    assert ResultOk(s, id);
  }

  lemma PlainRun(c: Config, s: System, a: Action)
    requires Enabled(c, s, a) && ByRunner(a) && ResultOk(s, a.id)
    ensures Plain(s, NextRun(c, s, a), a.id) && ResultOk(NextRun(c, s, a), a.id)
  {
    var t := NextRun(c, s, a);
    if a.SignalDone? { assert a.n !in s.waits.notifiers && t.waits == Summon(s.waits, a.n, a.id); }
  }

  // ---------------------------------------------------------------- notifyWaiters and Wait

  lemma ClaimKeeps(c: Config, s: System, n: nat)
    requires WaitInv(s) && Enabled(c, s, Claim(n))
    ensures WaitInv(NextWait(c, s, Claim(n)))
  {
    var t := NextWait(c, s, Claim(n));
    var id := s.waits.notifiers[n].id;
    var list := s.entries[id].waiting;
    assert ListOk(s, id) && NotifierOk(s, n);
    forall x ensures ResultOk(t, x) { assert ResultOk(s, x); }
    forall ch ensures ChannelOk(t, ch) { assert ChannelOk(s, ch); }
    forall x ensures ListOk(t, x) {
      assert ListOk(s, x);
      if x in t.entries && x != id {
        forall i | 0 <= i < |t.entries[x].waiting| ensures IsChannel(t, t.entries[x].waiting[i], x, Listed) {
          assert IsChannel(s, s.entries[x].waiting[i], x, Listed);
          assert s.entries[x].waiting[i] !in list;
        }
      }
    }
    forall m ensures NotifierOk(t, m) {
      assert NotifierOk(s, m);
      if m in t.waits.notifiers && m != n && t.waits.notifiers[m].Closing? {
        var todo := t.waits.notifiers[m].todo;
        forall i | 0 <= i < |todo| ensures IsChannel(t, todo[i], t.waits.notifiers[m].id, Claimed(m)) {
          assert IsChannel(s, todo[i], s.waits.notifiers[m].id, Claimed(m));
          assert todo[i] !in list;
        }
      }
    }
  }

  lemma CloseKeeps(c: Config, s: System, n: nat)
    requires WaitInv(s) && Enabled(c, s, CloseNext(n))
    ensures WaitInv(NextWait(c, s, CloseNext(n)))
  {
    var t := NextWait(c, s, CloseNext(n));
    var id, todo := s.waits.notifiers[n].id, s.waits.notifiers[n].todo;
    assert NotifierOk(s, n) && IsChannel(s, todo[0], id, Claimed(n)) && ChannelOk(s, todo[0]);
    forall x ensures ResultOk(t, x) { assert ResultOk(s, x); }
    forall x ensures ListOk(t, x) { assert ListOk(s, x); }
    forall m ensures NotifierOk(t, m) {
      assert NotifierOk(s, m);
      if m == n {
        forall i | 0 <= i < |todo| - 1 ensures IsChannel(t, todo[1..][i], id, Claimed(n)) {
          assert IsChannel(s, todo[i + 1], id, Claimed(n));
        }
      }
    }
    forall ch ensures ChannelOk(t, ch) {
      assert ChannelOk(s, ch);
      if ch in todo && ch != todo[0] { assert ch in todo[1..]; }
    }
  }

  lemma RegisterKeeps(c: Config, s: System, ch: nat)
    requires WaitInv(s) && Enabled(c, s, Register(ch))
    ensures WaitInv(NextWait(c, s, Register(ch)))
  {
    var t := NextWait(c, s, Register(ch));
    var id := s.waits.channels[ch].id;
    assert ListOk(s, id) && ChannelOk(s, ch);
    forall x ensures ResultOk(t, x) { assert ResultOk(s, x); }
    forall x ensures ListOk(t, x) { assert ListOk(s, x); }
    forall m ensures NotifierOk(t, m) { assert NotifierOk(s, m); }
    forall x ensures ChannelOk(t, x) {
      assert ChannelOk(s, x);
      if x == ch { assert t.entries[id].waiting[|s.entries[id].waiting|] == ch; }
    }
  }

  lemma OtherWaitKeeps(c: Config, s: System, a: Action)
    requires WaitInv(s) && Enabled(c, s, a) && (a.Dismiss? || a.CheckState?)
    ensures WaitInv(NextWait(c, s, a))
  {
    var t := NextWait(c, s, a);
    forall x ensures ResultOk(t, x) { assert ResultOk(s, x); }
    forall x ensures ListOk(t, x) { assert ListOk(s, x); }
    forall m ensures NotifierOk(t, m) { assert NotifierOk(s, m); }
    forall x ensures ChannelOk(t, x) { assert ChannelOk(s, x); }
  }

  lemma WaitNext(c: Config, s: System, a: Action)
    requires WaitInv(s) && Enabled(c, s, a)
    ensures WaitInv(Next(c, s, a))
  {
    if ByCaller(a) {
      var id := PlainCaller(c, s, a);
      PlainKeeps(s, NextCaller(c, s, a), id);
    } else if ByDispatcher(a) {
      var id := PlainDispatch(c, s, a);
      PlainKeeps(s, NextDispatch(c, s, a), id);
    } else if ByWaiter(a) {
      match a
      case Claim(n) => ClaimKeeps(c, s, n);
      case CloseNext(n) => CloseKeeps(c, s, n);
      case Register(ch) => RegisterKeeps(c, s, ch);
      case _ => OtherWaitKeeps(c, s, a);
    } else {
      assert ResultOk(s, a.id);
      PlainRun(c, s, a);
      PlainKeeps(s, NextRun(c, s, a), a.id);
    }
  }

  ghost predicate FullInv(c: Config, s: System) { CoreInv(c, s) && WaitInv(s) }

  lemma FullStep(c: Config, s: System, a: Action)
    requires FullInv(c, s)
    ensures FullInv(c, Step(c, s, a))
  {
    if Enabled(c, s, a) {
      PlaceNext(c, s, a);
      SlotNext(c, s, a);
      WaitNext(c, s, a);
    }
  }

  lemma {:induction false} FullAlways(c: Config, s: System, acts: seq<Action>)
    requires FullInv(c, s)
    ensures FullInv(c, Run(c, s, acts))
    decreases |acts|
  {
    if |acts| > 0 {
      FullStep(c, s, acts[0]);
      FullAlways(c, Step(c, s, acts[0]), acts[1..]);
    }
  }

  lemma ReachableFull(c: Config, s: System)
    requires Reachable(c, s)
    ensures FullInv(c, s)
  {
    PlaceInit();
    SlotInit(c);
    assert WaitInv(INIT);
    var acts :| Run(c, INIT, acts) == s;
    FullAlways(c, INIT, acts);
  }

  // Wake-ups are safe: no channel is ever closed twice, a closed channel belongs to an
  // execution whose result is set (so a woken Wait returns a result), and so does a terminal
  // state (so a Wait that does not block returns one too).
  lemma WakeupsSafe(c: Config, s: System)
    requires Reachable(c, s)
    ensures forall ch :: ch in s.waits.channels ==> s.waits.channels[ch].closes <= 1
    ensures forall ch :: ch in s.waits.channels && s.waits.channels[ch].closes > 0 ==>
      s.waits.channels[ch].id in s.entries && s.entries[s.waits.channels[ch].id].hasResult
    ensures forall id :: id in s.entries && Terminal(s.entries[id].state) ==> s.entries[id].hasResult
  {
    ReachableFull(c, s);
    forall ch | ch in s.waits.channels
      ensures s.waits.channels[ch].closes <= 1
      ensures s.waits.channels[ch].closes > 0 ==>
        s.waits.channels[ch].id in s.entries && s.entries[s.waits.channels[ch].id].hasResult
    {
      assert ChannelOk(s, ch);
    }
    forall id | id in s.entries && Terminal(s.entries[id].state) ensures s.entries[id].hasResult {
      assert ResultOk(s, id);
    }
  }
}
