// The wire form of a context, core/context/serialization.go. The deadline field is left out.

module Wire {
  import opened Option
  import opened Scheduler
  import opened Contexts

  datatype BudgetProto = BudgetProto(limit: real, spent: real, currency: string)

  datatype Proto = Proto(
    session: string, user: string, execution: string, parent: string, trace: string,
    priority: int, metadata: map<string, string>, budget: Option<BudgetProto>)

  function PriorityToInt(p: PriorityClass): int {
    match p
    case Critical => 4
    case High => 3
    case Normal => 2
    case Low => 1
    case Background => 0
    case Custom(_) => 2
  }

  function IntToPriority(n: int): PriorityClass {
    if n == 4 then Critical else if n == 3 then High else if n == 2 then Normal
    else if n == 1 then Low else if n == 0 then Background else Normal
  }

  lemma PriorityRoundTrips(p: PriorityClass, n: int)
    ensures Known(p) <==> IntToPriority(PriorityToInt(p)) == p
    ensures 0 <= n <= 4 <==> PriorityToInt(IntToPriority(n)) == n
  {
  }

  // The codes keep the order in which the classes are served, within 0 to 4, which leaves only
  // one choice for each class; an unknown class is encoded as Normal, and an unknown code is
  // Normal.
  lemma CodesOrdered(p: PriorityClass, q: PriorityClass, n: int)
    ensures 0 <= PriorityToInt(p) <= 4
    ensures Known(p) && Known(q) && RankOf(p) < RankOf(q) ==> PriorityToInt(p) > PriorityToInt(q)
    ensures !Known(p) ==> PriorityToInt(p) == PriorityToInt(Normal)
    ensures !(0 <= n <= 4) ==> IntToPriority(n) == Normal
    ensures 0 <= n <= 4 ==> Known(IntToPriority(n)) && RankOf(IntToPriority(n)) == 4 - n
  {
  }

  // The counters of amounts spent, in the order of their creation.
  type Cells = seq<real>

  predicate Stored(c: Ctx, cells: Cells) {
    GetCostBudget(c).Some? && GetCostBudget(c).value.cell.Some? ==> GetCostBudget(c).value.cell.value < |cells|
  }

  function ToProto(c: Ctx, cells: Cells): Proto
    requires Stored(c, cells)
  {
    var budget := match GetCostBudget(c)
      case None => None
      case Some(b) => Some(BudgetProto(b.limit, if b.cell.Some? then cells[b.cell.value] else 0.0, b.currency));
    Proto(GetSessionID(c), GetUserID(c), GetExecutionID(c), GetParentExecutionID(c), GetTraceID(c),
          PriorityToInt(GetPriority(c)), Request(c).metadata, budget)
  }

  // The wire form shows what the accessors show, the priority as 4 down to 0 in serving order.
  lemma ToProtoShows(c: Ctx, cells: Cells)
    requires Stored(c, cells)
    ensures var p := ToProto(c, cells);
      && p.session == GetSessionID(c) && p.user == GetUserID(c) && p.execution == GetExecutionID(c)
      && p.parent == GetParentExecutionID(c) && p.trace == GetTraceID(c)
      && p.priority == (if Known(GetPriority(c)) then 4 - RankOf(GetPriority(c)) else 2)
      && (p.budget.Some? <==> GetCostBudget(c).Some?)
      && (p.budget.Some? ==>
            && p.budget.value.limit == GetCostBudget(c).value.limit
            && p.budget.value.currency == GetCostBudget(c).value.currency)
  {
  }

  // What a round trip makes of every field but the metadata. With an execution ID, a missing
  // trace is invented and an unknown priority becomes Normal; without one, trace, parent and
  // priority are lost.
  function Normalised(p: Proto): Proto {
    if p.execution != ""
    then p.(trace := if p.trace != "" then p.trace else "tr-" + p.execution,
            priority := if 0 <= p.priority <= 4 then p.priority else 2)
    else p.(trace := "", parent := "", priority := 2)
  }

  // The messages that survive a round trip.
  ghost predicate Faithful(p: Proto) {
    && Size(p.metadata) <= LIMIT
    && (if p.execution != "" then p.trace != "" && 0 <= p.priority <= 4
        else p.trace == "" && p.parent == "" && p.priority == 2)
  }

  // kept are entries of all that fit, and none of the others would still fit.
  ghost predicate Maximal(kept: map<string, string>, all: map<string, string>) {
    && (forall k :: k in kept ==> k in all && kept[k] == all[k])
    && Size(kept) <= LIMIT
    && (forall k :: k in all && k !in kept ==> Size(kept[k := all[k]]) > LIMIT)
  }

  // q can come out of a trip of p: all other fields normalised, a maximal part of the metadata kept.
  ghost predicate AfterTrip(p: Proto, q: Proto) {
    q == Normalised(p).(metadata := q.metadata) && Maximal(q.metadata, p.metadata)
  }

  lemma MaximalIsAll(kept: map<string, string>, all: map<string, string>)
    requires Maximal(kept, all)
    ensures kept == all <==> Size(all) <= LIMIT
  {
    if Size(all) <= LIMIT {
      forall k | k in all ensures k in kept {
        if k !in kept {
          SizeOfPart(kept[k := all[k]], all);
          assert false;
        }
      }
    }
  }

  // The layers FromProto builds before it visits the metadata. ExecutionRestored is the part
  // under an execution ID: WithExecution, then parent and trace overwritten when present.
  function Identified(p: Proto, instance: string, version: string): Ctx {
    var root := NewRoot(instance, version);
    if p.session != "" then WithSession(root, p.session, p.user)
    else if p.user != "" then WithUser(root, p.user, "", map[])
    else root
  }

  function ExecutionRestored(c: Ctx, p: Proto, remaining: nat, now: int): Ctx {
    if p.execution == "" then c else
      var d := WithExecution(c, p.execution, remaining, IntToPriority(p.priority), now);
      var r := d.request.value;
      d.(request := Some(r.(parent := if p.parent != "" then p.parent else r.parent,
                            trace := if p.trace != "" then p.trace else r.trace)))
  }

  function BudgetRestored(c: Ctx, p: Proto, cells: Cells): (Ctx, Cells) {
    if p.budget.None? then (c, cells) else
      (WithCostBudget(c, CostBudget(p.budget.value.limit, Some(|cells|), p.budget.value.currency)),
       cells + [0.0 + p.budget.value.spent])
  }

  lemma IdentifiedFields(p: Proto, instance: string, version: string)
    ensures var c := Identified(p, instance, version);
      && c.request.None? && c.compat.execution == "" && c.compat.trace == ""
      && GetSessionID(c) == p.session && GetUserID(c) == p.user
  {
  }

  // What is restored under an execution ID, or without one.
  // Under an execution ID the context shows the class of the message's code.
  predicate Prioritised(c: Ctx, p: Proto) {
    p.execution != "" ==> c.request.Some? && c.request.value.priority == IntToPriority(p.priority)
  }

  lemma ExecutionFields(c: Ctx, p: Proto, remaining: nat, now: int)
    requires c.request.None? && c.compat.execution == "" && c.compat.trace == ""
    requires GetSessionID(c) == p.session && GetUserID(c) == p.user
    ensures var d := ExecutionRestored(c, p, remaining, now);
      && (d.request.None? ==> d.compat.execution == "" && d.compat.trace == "")
      && Request(d).metadata == map[] && GetCostBudget(d) == None
      && ToProto(d, []) == Normalised(p).(metadata := map[], budget := None) && Prioritised(d, p)
  {
    PriorityRoundTrips(Normal, p.priority);
  }

  lemma BudgetFields(c: Ctx, p: Proto, cells: Cells)
    requires c.request.None? ==> c.compat.execution == "" && c.compat.trace == ""
    requires GetCostBudget(c) == None && Prioritised(c, p)
    ensures var r := BudgetRestored(c, p, cells);
      && cells <= r.1 && Stored(r.0, r.1) && Request(r.0).metadata == Request(c).metadata
      && (r.0.request.None? ==> r.0.compat.execution == "" && r.0.compat.trace == "")
      && ToProto(r.0, r.1) == ToProto(c, []).(budget := p.budget) && Prioritised(r.0, p)
  {
  }

  lemma RestoredFields(p: Proto, cells: Cells, instance: string, version: string, remaining: nat, now: int)
    ensures var r := BudgetRestored(ExecutionRestored(Identified(p, instance, version), p, remaining, now), p, cells);
      && cells <= r.1 && Stored(r.0, r.1) && Request(r.0).metadata == map[]
      && (r.0.request.None? ==> r.0.compat.execution == "" && r.0.compat.trace == "")
      && ToProto(r.0, r.1) == Normalised(p).(metadata := map[]) && Prioritised(r.0, p)
  {
    hide Prioritised, ToProto, Normalised, Identified, ExecutionRestored, BudgetRestored;
    var c := Identified(p, instance, version);
    IdentifiedFields(p, instance, version);
    ExecutionFields(c, p, remaining, now);
    BudgetFields(ExecutionRestored(c, p, remaining, now), p, cells);
    assert Normalised(p).budget == p.budget by { BudgetUntouched(p); }
  }

  lemma BudgetUntouched(p: Proto)
    ensures Normalised(p).budget == p.budget
  {
  }

  // Adding metadata changes nothing else of the message, once the context has a request layer
  // or shows none of its fields.
  lemma AddingKeepsRest(c: Ctx, cells: Cells, k: string, v: string)
    requires Stored(c, cells)
    requires c.request.None? ==> c.compat.execution == "" && c.compat.trace == ""
    ensures var d := MetadataAdded(c, k, v);
      && Stored(d, cells) && (d.request.None? ==> d.compat.execution == "" && d.compat.trace == "")
      && ToProto(d, cells) == ToProto(c, cells).(metadata := Request(d).metadata)
      && Request(d).metadata == (if Fits(c, k, v) then Request(c).metadata[k := v] else Request(c).metadata)
      && (c.request.Some? ==> d.request.Some? && d.request.value.priority == c.request.value.priority)
  {
  }

  // Whatever the order in which the metadata is visited: every field but the metadata comes out
  // normalised, a maximal part of the metadata is kept, and the message survives the round trip
  // exactly when it is faithful.
  method FromProto(p: Proto, cells: Cells, instance: string, version: string, remaining: nat, now: int)
    returns (c: Ctx, out: Cells)
    ensures cells <= out && Stored(c, out)
    ensures AfterTrip(p, ToProto(c, out))
    ensures ToProto(c, out) == p <==> Faithful(p)
    ensures GetSessionID(c) == p.session && GetUserID(c) == p.user && GetExecutionID(c) == p.execution
    ensures p.execution != "" ==>
      && GetParentExecutionID(c) == p.parent
      && GetTraceID(c) == (if p.trace != "" then p.trace else "tr-" + p.execution)
      && (if 0 <= p.priority <= 4 then Known(GetPriority(c)) && RankOf(GetPriority(c)) == 4 - p.priority
          else GetPriority(c) == Normal)
    ensures p.execution == "" ==> GetParentExecutionID(c) == "" == GetTraceID(c)
  {
    hide WithExecution, WithSession, WithUser, ExecutionRestored, Identified, BudgetRestored;
    RestoredFields(p, cells, instance, version, remaining, now);
    c := Identified(p, instance, version);
    c := ExecutionRestored(c, p, remaining, now);
    var r := BudgetRestored(c, p, cells);
    c, out := r.0, r.1;
    var rest := p.metadata.Keys;
    while rest != {}
      invariant rest <= p.metadata.Keys
      invariant Stored(c, out) && (c.request.None? ==> c.compat.execution == "" && c.compat.trace == "")
      invariant ToProto(c, out) == Normalised(p).(metadata := Request(c).metadata)
      invariant Request(c).metadata.Keys <= p.metadata.Keys - rest && Prioritised(c, p)
      invariant Maximal(Request(c).metadata, map k | k in p.metadata && k !in rest :: p.metadata[k])
      decreases rest
    {
      var k :| k in rest;
      AddingKeepsRest(c, out, k, p.metadata[k]);
      MaximalGrows(Request(c).metadata, p.metadata, rest, k);
      var d, _ := WithMetadata(c, k, p.metadata[k]);
      c, rest := d, rest - {k};
    }
    assert (map k | k in p.metadata && k !in rest :: p.metadata[k]) == p.metadata;
    MaximalIsAll(Request(c).metadata, p.metadata);
    assert Normalised(p) == p <==> (if p.execution != "" then p.trace != "" && 0 <= p.priority <= 4
        else p.trace == "" && p.parent == "" && p.priority == 2);
  }

  lemma MaximalGrows(kept: map<string, string>, all: map<string, string>, rest: set<string>, k: string)
    requires k in rest && rest <= all.Keys && kept.Keys <= all.Keys - rest
    requires Maximal(kept, map h | h in all && h !in rest :: all[h])
    ensures var more := if Size(kept[k := all[k]]) <= LIMIT then kept[k := all[k]] else kept;
      Maximal(more, map h | h in all && h !in rest - {k} :: all[h])
  {
    var seen := map h | h in all && h !in rest - {k} :: all[h];
    if Size(kept[k := all[k]]) <= LIMIT {
      var more := kept[k := all[k]];
      forall h | h in seen && h !in more ensures Size(more[h := seen[h]]) > LIMIT {
        SizeOfPart(kept[h := seen[h]], more[h := seen[h]]);
      }
    }
  }

  // Contexts built without Merge survive exactly when they name an execution and its trace, or
  // no execution, trace, parent or priority other than Normal at all.
  lemma DerivedRoundTrip(c: Ctx, cells: Cells)
    requires Capped(c) && Stored(c, cells)
    ensures Faithful(ToProto(c, cells)) <==>
      if GetExecutionID(c) != "" then GetTraceID(c) != ""
      else GetTraceID(c) == "" && GetParentExecutionID(c) == "" && PriorityToInt(GetPriority(c)) == 2
  {
  }

  // Whatever is derived without Merge from a context that names an execution and a trace, under
  // non-empty execution IDs, is not changed by the wire.
  lemma {:induction false} ExecutionsRoundTrip(c: Ctx, cells: Cells, steps: seq<Step>)
    requires Capped(c) && c.request.Some? && GetTraceID(c) != "" && GetExecutionID(c) != ""
    requires forall s :: s in steps && (s.Execution? || s.Child?) ==> s.id != ""
    requires Stored(DeriveAll(c, steps), cells)
    ensures Faithful(ToProto(DeriveAll(c, steps), cells))
    decreases |steps|
  {
    MetadataCapped(c, steps);
    TraceSurvives(c, steps);
    if |steps| > 0 {
      var d := Derive(c, steps[0]);
      assert steps[0] in steps;
      assert GetTraceID(d) != "" by { TraceLostIff(c, steps[0]); }
      MetadataCapped(c, [steps[0]]);
      assert DeriveAll(c, [steps[0]]) == d by { assert [steps[0]][1..] == []; }
      ExecutionsRoundTrip(d, cells, steps[1..]);
    }
  }

  // Whatever the first trip makes of a message, of any size, is faithful, so a second trip
  // changes nothing more.
  lemma NormalisedOnce(p: Proto, q: Proto, r: Proto)
    requires AfterTrip(p, q) && AfterTrip(q, r)
    ensures Faithful(q) && r == q
  {
    MaximalIsAll(r.metadata, q.metadata);
  }
}
