// The runtime lifecycle of core/lifecycle/manager.go: transitions requested by the runtime and
// transitions caused by component health reports. Reason texts and report times are left out.

module Lifecycle {
  import opened Option

  datatype Phase = Uninitialized | Booting | Ready | Running | Degraded | Draining | Stopped | Failed

  datatype Component = Component(healthy: bool, fatal: bool, lastError: string)

  type Components = map<string, Component>

  datatype Life = Life(phase: Phase, components: Components)

  // The table of requested transitions.
  predicate Legal(from: Phase, to: Phase) {
    match from
    case Uninitialized => to.Booting?
    case Booting => to.Ready? || to.Failed?
    case Ready => to.Running? || to.Draining? || to.Failed?
    case Running => to.Degraded? || to.Failed? || to.Draining?
    case Degraded => to.Running? || to.Failed? || to.Draining?
    case Draining => to.Stopped?
    case Failed => to.Booting?
    case Stopped => false
  }

  ghost predicate SomeUnhealthy(components: Components) {
    exists n :: n in components && !components[n].healthy
  }

  // A failed health report for a component is recorded with its error text.
  datatype Event = Transit(to: Phase) | Report(name: string, healthy: bool, fatal: bool, error: string)

  function Transited(l: Life, to: Phase): Life {
    if l.phase == to || !Legal(l.phase, to) then l
    else Life(to, if to.Booting? then map[] else l.components)
  }

  ghost function Reported(l: Life, name: string, healthy: bool, fatal: bool, error: string): Life {
    if l.phase.Draining? || l.phase.Stopped? then l else
      var components := l.components[name := Component(healthy, fatal, if healthy then "" else error)];
      var phase :=
        if !healthy && fatal && (l.phase.Running? || l.phase.Degraded? || l.phase.Ready? || l.phase.Booting?)
        then Failed
        else if !healthy && !fatal && (l.phase.Running? || l.phase.Ready?) then Degraded
        else if healthy && l.phase.Degraded? && !SomeUnhealthy(components) then Running
        else l.phase;
      Life(phase, components)
  }

  ghost function Next(l: Life, e: Event): Life {
    match e
    case Transit(to) => Transited(l, to)
    case Report(n, h, f, error) => Reported(l, n, h, f, error)
  }

  ghost function After(l: Life, run: seq<Event>): Life
    decreases |run|
  {
    if |run| == 0 then l else After(Next(l, run[0]), run[1..])
  }

  const NANOS_PER_MILLI: int := 1_000_000

  predicate RestartOk(last: Option<int>, now: int, cooldown: int) {
    last.None? || now - last.value >= cooldown
  }

  class LifecycleManager {
    var phase: Phase
    var components: Components
    var lastRestart: Option<int>
    var cooldownMS: int

    ghost function View(): Life
      reads this
    {
      Life(phase, components)
    }

    constructor ()
      ensures View() == Life(Uninitialized, map[]) && lastRestart == None && cooldownMS == 1000
    {
      phase, components, lastRestart, cooldownMS := Uninitialized, map[], None, 1000;
    }

    // Refused requests change nothing; asking for the current phase succeeds and changes nothing.
    method Transition(to: Phase) returns (ok: bool)
      modifies this`phase, this`components
      ensures View() == Next(old(View()), Transit(to))
      ensures ok <==> old(phase) == to || Legal(old(phase), to)
    {
      if phase == to { return true; }
      if !Legal(phase, to) { return false; }
      phase := to;
      if to == Booting { components := map[]; }
      return true;
    }

    method HandleComponentFailure(was: Phase, fatal: bool)
      modifies this`phase
      ensures phase ==
        if fatal && (was.Running? || was.Degraded? || was.Ready? || was.Booting?) then Failed
        else if !fatal && (was.Running? || was.Ready?) then Degraded
        else old(phase)
    {
      if fatal {
        if was == Running || was == Degraded || was == Ready || was == Booting { phase := Failed; }
      } else {
        if was == Running || was == Ready { phase := Degraded; }
      }
    }

    method HandleComponentRecovery(was: Phase)
      modifies this`phase
      ensures phase == if was.Degraded? && !SomeUnhealthy(components) then Running else old(phase)
    {
      if was != Degraded { return; }
      var allHealthy := true;
      var rest := components.Keys;
      while rest != {}
        invariant rest <= components.Keys
        invariant allHealthy <==> forall n :: n in components && n !in rest ==> components[n].healthy
        decreases rest
      {
        var n :| n in rest;
        if !components[n].healthy { allHealthy := false; }
        rest := rest - {n};
      }
      if allHealthy { phase := Running; }
    }

    method ReportComponentHealth(name: string, healthy: bool, fatal: bool, error: string)
      modifies this`phase, this`components
      ensures View() == Next(old(View()), Report(name, healthy, fatal, error))
    {
      var was := phase;
      if was == Draining || was == Stopped { return; }
      components := components[name := Component(healthy, fatal, if healthy then "" else error)];
      if !healthy {
        HandleComponentFailure(was, fatal);
      } else {
        HandleComponentRecovery(was);
      }
    }

    method CheckRestartCooldown(now: int) returns (ok: bool)
      modifies this`lastRestart
      ensures ok == RestartOk(old(lastRestart), now, cooldownMS * NANOS_PER_MILLI)
      ensures lastRestart == if ok then Some(now) else old(lastRestart)
    {
      if lastRestart.Some? && now - lastRestart.value < cooldownMS * NANOS_PER_MILLI { return false; }
      lastRestart := Some(now);
      return true;
    }
  }

  // ---------------------------------------------------------------- one step

  // The table of requested transitions, as a set.
  const REQUESTS: set<(Phase, Phase)> := {
    (Uninitialized, Booting), (Booting, Ready), (Booting, Failed), (Ready, Running), (Ready, Draining), (Ready, Failed),
    (Running, Degraded), (Running, Failed), (Running, Draining), (Degraded, Running), (Degraded, Failed),
    (Degraded, Draining), (Draining, Stopped), (Failed, Booting) }

  // A request moves the runtime exactly along the table, where it stays otherwise; only booting
  // changes the components, and it clears them.
  lemma RequestsExact(l: Life, to: Phase)
    ensures Next(l, Transit(to)) ==
      if (l.phase, to) !in REQUESTS then l else Life(to, if to == Booting then map[] else l.components)
  {
  }

  // What a health report does: nothing while draining or stopped; otherwise it is recorded, a
  // fatal failure fails a booting, ready, running or degraded runtime, another failure degrades
  // a ready or running one, a recovery brings a degraded one back to running when it was the
  // last, and in all other cases the phase stays.
  lemma ReportsExact(l: Life, name: string, healthy: bool, fatal: bool, error: string)
    ensures var t := Next(l, Report(name, healthy, fatal, error));
      if l.phase in {Draining, Stopped} then t == l
      else
        && t.components == l.components[name := Component(healthy, fatal, if healthy then "" else error)]
        && (!healthy && fatal && l.phase in {Booting, Ready, Running, Degraded} ==> t.phase == Failed)
        && (!healthy && !fatal && l.phase in {Ready, Running} ==> t.phase == Degraded)
        && (healthy && l.phase == Degraded ==>
              t.phase == if forall n :: n in t.components ==> t.components[n].healthy then Running else Degraded)
        && (!healthy && fatal && l.phase in {Uninitialized, Failed} ==> t.phase == l.phase)
        && (!healthy && !fatal && l.phase !in {Ready, Running} ==> t.phase == l.phase)
        && (healthy && l.phase != Degraded ==> t.phase == l.phase)
  {
  }

  // The two writers together can move the runtime from one phase to another exactly along the
  // table and from Ready to Degraded, by a report.
  lemma EdgesExact(from: Phase, to: Phase)
    ensures from != to ==>
      ((from, to) in REQUESTS + {(Ready, Degraded)} <==> exists cs, e :: Next(Life(from, cs), e).phase == to)
  {
    if (from, to) in REQUESTS { assert Next(Life(from, map[]), Transit(to)).phase == to; }
    if from.Ready? && to.Degraded? { assert Next(Life(from, map[]), Report("c", false, false, "")).phase == to; }
  }

  // ---------------------------------------------------------------- histories

  // Once left, Uninitialized is not entered again; a draining runtime only stops, a stopped
  // one stays stopped, and neither takes further health reports.
  lemma {:induction false} NoWayBack(l: Life, run: seq<Event>)
    ensures !l.phase.Uninitialized? ==> !After(l, run).phase.Uninitialized?
    ensures l.phase.Draining? || l.phase.Stopped? ==>
      (After(l, run).phase.Draining? || After(l, run).phase.Stopped?) && After(l, run).components == l.components
    ensures l.phase.Stopped? ==> After(l, run) == l
    decreases |run|
  {
    if |run| > 0 { NoWayBack(Next(l, run[0]), run[1..]); }
  }

  // A failed runtime stays failed until it boots with no component recorded.
  lemma {:induction false} FailedOnlyReboots(l: Life, run: seq<Event>) returns (k: nat)
    requires l.phase.Failed?
    ensures k <= |run| && forall i: nat :: i < k ==> After(l, run[..i]).phase.Failed?
    ensures if After(l, run[..k]).phase.Failed? then k == |run| else After(l, run[..k]) == Life(Booting, map[])
    decreases |run|
  {
    if |run| == 0 {
      k := 0;
    } else {
      var m := Next(l, run[0]);
      PrefixStep(l, run);
      if m.phase.Failed? {
        var h := FailedOnlyReboots(m, run[1..]);
        k := h + 1;
      } else {
        k := 1;
        assert run[..1][1..] == [];
        assert run[..0] == [];
      }
    }
  }

  lemma PrefixStep(l: Life, run: seq<Event>)
    requires |run| > 0
    ensures forall i: nat :: 0 < i <= |run| ==> After(l, run[..i]) == After(Next(l, run[0]), run[1..][..i - 1])
    ensures After(l, run[..0]) == l
  {
    forall i: nat | 0 < i <= |run| ensures After(l, run[..i]) == After(Next(l, run[0]), run[1..][..i - 1]) {
      assert run[..i][1..] == run[1..][..i - 1];
    }
  }

  // A runtime that does not serve yet, or has failed, boots and is Ready before it runs or degrades.
  lemma {:induction false} ServingNeedsReady(l: Life, run: seq<Event>) returns (k: nat)
    requires l.phase.Uninitialized? || l.phase.Booting? || l.phase.Failed?
    requires After(l, run).phase.Running? || After(l, run).phase.Degraded? || After(l, run).phase.Ready?
    ensures k < |run| && After(l, run[..k]).phase.Booting? && After(l, run[..k + 1]).phase.Ready?
    decreases |run|
  {
    var m := Next(l, run[0]);
    PrefixStep(l, run);
    if m.phase.Ready? {
      k := 0;
      assert After(l, run[..1]) == After(m, run[1..][..0]);
    } else {
      var h := ServingNeedsReady(m, run[1..]);
      k := h + 1;
    }
  }

  // ---------------------------------------------------------------- degraded means unhealthy

  ghost predicate Explained(l: Life) { l.phase.Degraded? ==> SomeUnhealthy(l.components) }

  // A requested degradation with no unhealthy component on record.
  ghost predicate Unfounded(l: Life, e: Event) {
    e == Transit(Degraded) && l.phase.Running? && !SomeUnhealthy(l.components)
  }

  lemma StepExplained(l: Life, e: Event)
    requires Explained(l)
    ensures Explained(Next(l, e)) <==> !Unfounded(l, e)
  {
    if e.Report? {
      assert !e.healthy && !l.phase.Draining? && !l.phase.Stopped? ==>
        e.name in Next(l, e).components && !Next(l, e).components[e.name].healthy;
    }
  }

  // Degraded always means that some component is recorded as unhealthy, over a whole run,
  // exactly when no degradation without one was requested. Reports alone never break it.
  lemma {:induction false} DegradedExplainedIff(l: Life, run: seq<Event>)
    requires Explained(l)
    ensures (forall k: nat :: k <= |run| ==> Explained(After(l, run[..k])))
       <==> (forall k: nat :: k < |run| ==> !Unfounded(After(l, run[..k]), run[k]))
    decreases |run|
  {
    if |run| == 0 {
      assert run[..0] == run;
    } else {
      var m := Next(l, run[0]);
      PrefixStep(l, run);
      StepExplained(l, run[0]);
      assert After(l, run[..1]) == After(m, run[1..][..0]);
      if !Unfounded(l, run[0]) {
        DegradedExplainedIff(m, run[1..]);
        ShiftExplained(l, run);
        ShiftUnfounded(l, run);
      }
    }
  }

  lemma ShiftExplained(l: Life, run: seq<Event>)
    requires |run| > 0 && Explained(l)
    ensures (forall k: nat :: k <= |run| ==> Explained(After(l, run[..k])))
       <==> (forall k: nat :: k <= |run[1..]| ==> Explained(After(Next(l, run[0]), run[1..][..k])))
  {
    PrefixStep(l, run);
    if forall k: nat :: k <= |run| ==> Explained(After(l, run[..k])) {
      forall k: nat | k <= |run[1..]| ensures Explained(After(Next(l, run[0]), run[1..][..k])) {
        assert Explained(After(l, run[..k + 1]));
      }
    }
  }

  lemma ShiftUnfounded(l: Life, run: seq<Event>)
    requires |run| > 0 && !Unfounded(l, run[0])
    ensures (forall k: nat :: k < |run| ==> !Unfounded(After(l, run[..k]), run[k]))
       <==> (forall k: nat :: k < |run[1..]| ==> !Unfounded(After(Next(l, run[0]), run[1..][..k]), run[1..][k]))
  {
    PrefixStep(l, run);
    if forall k: nat :: k < |run| ==> !Unfounded(After(l, run[..k]), run[k]) {
      forall k: nat | k < |run[1..]| ensures !Unfounded(After(Next(l, run[0]), run[1..][..k]), run[1..][k]) {
        assert !Unfounded(After(l, run[..k + 1]), run[k + 1]);
      }
    }
  }

  // ---------------------------------------------------------------- restarts

  // The accepted restarts among attempts at the given times.
  function Accepted(times: seq<int>, last: Option<int>, cooldown: int): seq<int> {
    if times == [] then []
    else if RestartOk(last, times[0], cooldown) then [times[0]] + Accepted(times[1..], Some(times[0]), cooldown)
    else Accepted(times[1..], last, cooldown)
  }

  predicate Apart(s: seq<int>, cooldown: int) {
    forall i :: 0 <= i < |s| - 1 ==> s[i + 1] - s[i] >= cooldown
  }

  // Accepted restarts are a cooldown apart even if the clock goes back.
  lemma {:induction false} AcceptedApart(times: seq<int>, last: Option<int>, cooldown: int)
    ensures Apart(Accepted(times, last, cooldown), cooldown)
    ensures last.Some? && Accepted(times, last, cooldown) != [] ==>
      Accepted(times, last, cooldown)[0] - last.value >= cooldown
  {
    if times != [] {
      if RestartOk(last, times[0], cooldown) {
        AcceptedApart(times[1..], Some(times[0]), cooldown);
      } else {
        AcceptedApart(times[1..], last, cooldown);
      }
    }
  }

  function CountIn(s: seq<int>, lo: int, hi: int): nat {
    if s == [] then 0 else (if lo <= s[0] <= hi then 1 else 0) + CountIn(s[1..], lo, hi)
  }

  lemma {:induction false} CountFrom(s: seq<int>, lo: int, from: int, hi: int)
    requires forall i :: 0 <= i < |s| ==> s[i] >= from
    requires lo <= from
    ensures CountIn(s, lo, hi) == CountIn(s, from, hi)
  {
    if s != [] { CountFrom(s[1..], lo, from, hi); }
  }

  lemma {:induction false} ApartAbove(s: seq<int>, cooldown: int)
    requires cooldown > 0 && Apart(s, cooldown) && s != []
    ensures forall i :: 0 < i < |s| ==> s[i] >= s[0] + cooldown
  {
    if |s| > 1 {
      TailApart(s, cooldown);
      ApartAbove(s[1..], cooldown);
      forall i | 0 < i < |s| ensures s[i] >= s[0] + cooldown {
        if i > 1 { assert s[i] == s[1..][i - 1]; }
      }
    }
  }

  lemma QuotientIs(a: int, q: int, r: int, c: int)
    requires c > 0 && a == q * c + r && 0 <= r < c
    ensures a / c == q
  {
    var d := a / c - q;
    assert d * c == r - a % c;
  }

  lemma OneMore(x: int, c: int)
    requires c > 0 && x >= c
    ensures (x - c) / c + 1 == x / c
  {
    var q, r := x / c, x % c;
    assert (q - 1) * c + r == x - c;
    QuotientIs(x - c, q - 1, r, c);
  }

  lemma {:induction false} DivMonotone(x: int, y: int, c: int)
    requires c > 0 && 0 <= x <= y
    ensures 0 <= x / c <= y / c
    decreases y
  {
    if x >= c {
      OneMore(x, c);
      OneMore(y, c);
      DivMonotone(x - c, y - c, c);
    }
  }

  lemma {:induction false} ApartCount(s: seq<int>, cooldown: int, lo: int, hi: int)
    requires cooldown > 0 && Apart(s, cooldown)
    ensures CountIn(s, lo, hi) <= if hi < lo then 0 else (hi - lo) / cooldown + 1
  {
    if hi < lo {
      if s != [] { TailApart(s, cooldown); ApartCount(s[1..], cooldown, lo, hi); }
    } else {
      DivMonotone(0, hi - lo, cooldown);
      if s != [] {
        TailApart(s, cooldown);
        ApartCount(s[1..], cooldown, lo, hi);
        if lo <= s[0] <= hi {
          ApartAbove(s, cooldown);
          CountFrom(s[1..], lo, s[0] + cooldown, hi);
          ApartCount(s[1..], cooldown, s[0] + cooldown, hi);
          if s[0] + cooldown <= hi {
            OneMore(hi - s[0], cooldown);
            DivMonotone(hi - s[0], hi - lo, cooldown);
          }
        }
      }
    }
  }

  lemma TailApart(s: seq<int>, cooldown: int)
    requires Apart(s, cooldown) && s != []
    ensures Apart(s[1..], cooldown)
  {
    forall i | 0 <= i < |s[1..]| - 1 ensures s[1..][i + 1] - s[1..][i] >= cooldown {
      assert s[i + 2] - s[i + 1] >= cooldown;
    }
  }

  // Any window of the given length holds at most length / cooldown + 1 accepted restarts.
  lemma RestartsInWindow(times: seq<int>, last: Option<int>, cooldown: int, from: int, length: nat)
    requires cooldown > 0
    ensures CountIn(Accepted(times, last, cooldown), from, from + length) <= length / cooldown + 1
  {
    AcceptedApart(times, last, cooldown);
    ApartCount(Accepted(times, last, cooldown), cooldown, from, from + length);
  }

  // And restarts that are a cooldown apart are all accepted.
  lemma {:induction false} ApartAccepted(times: seq<int>, last: Option<int>, cooldown: int)
    requires Apart(times, cooldown) && (times != [] ==> RestartOk(last, times[0], cooldown))
    ensures Accepted(times, last, cooldown) == times
  {
    if times != [] {
      TailApart(times, cooldown);
      assert |times| > 1 ==> times[1] - times[0] >= cooldown;
      ApartAccepted(times[1..], Some(times[0]), cooldown);
    }
  }
}
