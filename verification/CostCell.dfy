// The shared cost counters: AddSpent of core/context/context.go run by any number of threads.

module CostCell {
  import opened Option
  import opened Contexts
  import opened Wire

  // A thread is outside AddSpent, about to load the counter, or about to compare and swap.
  datatype Thread = Outside | Loading(cell: nat, amount: real) | Swapping(cell: nat, amount: real, seen: real)

  datatype State = State(cells: Cells, threads: map<nat, Thread>) {
    function Of(t: nat): Thread { if t in threads then threads[t] else Outside }
  }

  datatype Action = Call(t: nat, cell: nat, amount: real) | Load(t: nat) | Swap(t: nat)

  predicate Enabled(s: State, a: Action) {
    match a
    case Call(t, c, _) => s.Of(t).Outside? && c < |s.cells|
    case Load(t) => s.Of(t).Loading? && s.Of(t).cell < |s.cells|
    case Swap(t) => s.Of(t).Swapping? && s.Of(t).cell < |s.cells|
  }

  // The swap compares values, not versions: it succeeds when the counter again holds what was loaded.
  predicate Wins(s: State, a: Action) {
    a.Swap? && Enabled(s, a) && s.cells[s.Of(a.t).cell] == s.Of(a.t).seen
  }

  predicate Loses(s: State, a: Action) { a.Swap? && Enabled(s, a) && !Wins(s, a) }

  function Step(s: State, a: Action): State {
    if !Enabled(s, a) then s else
      var th := s.Of(a.t);
      match a
      case Call(t, c, x) => s.(threads := s.threads[t := Loading(c, x)])
      case Load(t) => s.(threads := s.threads[t := Swapping(th.cell, th.amount, s.cells[th.cell])])
      case Swap(t) =>
        if Wins(s, a) then State(s.cells[th.cell := th.seen + th.amount], s.threads[t := Outside])
        else s.(threads := s.threads[t := Loading(th.cell, th.amount)])
  }

  function After(s: State, run: seq<Action>): State
    decreases |run|
  {
    if |run| == 0 then s else After(Step(s, run[0]), run[1..])
  }

  // What the successful swaps of a run added to counter c.
  function Added(s: State, run: seq<Action>, c: nat): real
    decreases |run|
  {
    if |run| == 0 then 0.0 else
      (if Wins(s, run[0]) && s.Of(run[0].t).cell == c then s.Of(run[0].t).amount else 0.0)
        + Added(Step(s, run[0]), run[1..], c)
  }

  // No update is lost: in every interleaving a counter holds its initial value and the amount
  // of every call that completed on it.
  lemma {:induction false} NoLostUpdates(s: State, run: seq<Action>, c: nat)
    requires c < |s.cells|
    ensures |After(s, run).cells| == |s.cells|
    ensures After(s, run).cells[c] == s.cells[c] + Added(s, run, c)
    decreases |run|
  {
    if |run| > 0 { NoLostUpdates(Step(s, run[0]), run[1..], c); }
  }

  // The amount a thread has under way on counter c, and the amounts it is called with.
  function UnderWay(s: State, t: nat, c: nat): real {
    if !s.Of(t).Outside? && s.Of(t).cell == c then s.Of(t).amount else 0.0
  }

  function Called(s: State, run: seq<Action>, t: nat, c: nat): real
    decreases |run|
  {
    if |run| == 0 then 0.0 else
      (if run[0].Call? && run[0].t == t && run[0].cell == c && Enabled(s, run[0]) then run[0].amount else 0.0)
      + Called(Step(s, run[0]), run[1..], t, c)
  }

  function AddedBy(s: State, run: seq<Action>, t: nat, c: nat): real
    decreases |run|
  {
    if |run| == 0 then 0.0 else
      (if Wins(s, run[0]) && run[0].t == t && s.Of(t).cell == c then s.Of(t).amount else 0.0)
        + AddedBy(Step(s, run[0]), run[1..], t, c)
  }

  // Each call adds its amount exactly once: what a thread was called with is what it added and
  // what it still has under way.
  lemma {:induction false} CallsAddOnce(s: State, run: seq<Action>, t: nat, c: nat)
    ensures UnderWay(s, t, c) + Called(s, run, t, c) == AddedBy(s, run, t, c) + UnderWay(After(s, run), t, c)
    decreases |run|
  {
    if |run| > 0 { CallsAddOnce(Step(s, run[0]), run[1..], t, c); }
  }

  // Lock freedom: when a thread loads a counter and its swap then fails, another thread's swap
  // on the same counter succeeded in between.
  lemma {:induction false} FailedSwapMeansProgress(s: State, run: seq<Action>, t: nat) returns (k: nat)
    requires s.Of(t).Swapping? && s.Of(t).cell < |s.cells| && s.cells[s.Of(t).cell] == s.Of(t).seen
    requires forall a :: a in run ==> a.t != t
    requires Loses(After(s, run), Swap(t))
    ensures k < |run| && run[k].t != t && Wins(After(s, run[..k]), run[k])
    ensures After(s, run[..k]).Of(run[k].t).cell == s.Of(t).cell
    decreases |run|
  {
    assert |run| > 0;
    var a := run[0];
    assert a in run;
    if Wins(s, a) && s.Of(a.t).cell == s.Of(t).cell {
      k := 0;
    } else {
      var h := FailedSwapMeansProgress(Step(s, a), run[1..], t);
      k := h + 1;
      assert run[..k][1..] == run[1..][..h];
    }
  }

  function Failures(s: State, run: seq<Action>, t: nat): nat
    decreases |run|
  {
    if |run| == 0 then 0 else
      (if Loses(s, run[0]) && run[0].t == t then 1 else 0) + Failures(Step(s, run[0]), run[1..], t)
  }

  function OthersSuccesses(s: State, run: seq<Action>, t: nat): nat
    decreases |run|
  {
    if |run| == 0 then 0 else
      (if Wins(s, run[0]) && run[0].t != t then 1 else 0) + OthersSuccesses(Step(s, run[0]), run[1..], t)
  }

  // The counter changed since the thread loaded it.
  predicate Stale(s: State, t: nat) {
    s.Of(t).Swapping? && s.Of(t).cell < |s.cells| && s.cells[s.Of(t).cell] != s.Of(t).seen
  }

  // A thread never retries more often than the others succeed.
  lemma {:induction false} RetriesBounded(s: State, run: seq<Action>, t: nat)
    ensures Failures(s, run, t) <= OthersSuccesses(s, run, t) + if Stale(s, t) then 1 else 0
    decreases |run|
  {
    if |run| > 0 { RetriesBounded(Step(s, run[0]), run[1..], t); }
  }

  // Every context derived from a budgeted one without attaching a new budget reports the same
  // amount: what had been spent before, and every amount added through any of these contexts.
  lemma DerivedSeeAllSpending(c: Ctx, steps: seq<Contexts.Step>, s: State, run: seq<Action>)
    requires forall st :: st in steps ==> !st.Budget?
    requires GetCostBudget(c).Some? && GetCostBudget(c).value.cell.Some?
      && GetCostBudget(c).value.cell.value < |s.cells|
    ensures Stored(DeriveAll(c, steps), After(s, run).cells)
    ensures var cell := GetCostBudget(c).value.cell.value;
      ToProto(DeriveAll(c, steps), After(s, run).cells).budget
      == Some(ToProto(c, s.cells).budget.value.(spent := s.cells[cell] + Added(s, run, cell)))
  {
    BudgetShared(c, steps);
    NoLostUpdates(s, run, GetCostBudget(c).value.cell.value);
  }
}
