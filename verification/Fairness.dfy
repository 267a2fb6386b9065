// What the scheduler guarantees over whole runs: conservation, bounded overtaking and the
// exact weighted share.

module Fairness {
  import opened Option
  import opened Collections
  import opened Scheduler

  // One call on the scheduler. Each Dequeue brings its own filter; Remove names the class in
  // which Go's map iteration met the ID.
  datatype Op = Enqueue(job: Job) | Dequeue(ok: Filter) | Remove(class_: PriorityClass, id: string)

  ghost function Apply(s: State, op: Op): State {
    match op
    case Enqueue(j) => Enqueued(s, j)
    case Dequeue(ok) => Dequeued(s, ok).state
    case Remove(p, id) => RemovedIn(s, p, id)
  }

  function ToSeq(j: Option<Job>): seq<Job> { if j.Some? then [j.value] else [] }

  ghost function ReturnedBy(s: State, op: Op): seq<Job> {
    if op.Dequeue? then ToSeq(Dequeued(s, op.ok).job) else []
  }

  function DiscardedBy(s: State, op: Op): seq<Job> {
    if op.Remove? && FirstWithId(s.Queue(op.class_), op.id) < |s.Queue(op.class_)|
    then [s.Queue(op.class_)[FirstWithId(s.Queue(op.class_), op.id)]]
    else []
  }

  function AddedBy(op: Op): seq<Job> { if op.Enqueue? then [op.job] else [] }

  ghost function After(s: State, ops: seq<Op>): State
    decreases |ops|
  {
    if |ops| == 0 then s else After(Apply(s, ops[0]), ops[1..])
  }

  ghost function Returned(s: State, ops: seq<Op>): seq<Job>
    decreases |ops|
  {
    if |ops| == 0 then [] else ReturnedBy(s, ops[0]) + Returned(Apply(s, ops[0]), ops[1..])
  }

  ghost function Discarded(s: State, ops: seq<Op>): seq<Job>
    decreases |ops|
  {
    if |ops| == 0 then [] else DiscardedBy(s, ops[0]) + Discarded(Apply(s, ops[0]), ops[1..])
  }

  function Added(ops: seq<Op>): seq<Job>
    decreases |ops|
  {
    if |ops| == 0 then [] else AddedBy(ops[0]) + Added(ops[1..])
  }

  function Dequeues(ops: seq<Op>): nat
    decreases |ops|
  {
    if |ops| == 0 then 0 else (if ops[0].Dequeue? then 1 else 0) + Dequeues(ops[1..])
  }

  lemma ApplyValid(s: State, op: Op)
    requires s.Valid()
    ensures Apply(s, op).Valid()
  {
    match op
    case Enqueue(j) => EnqueuedValid(s, j);
    case Dequeue(ok) => DequeuedValid(s, ok);
    case Remove(p, id) => RemovedInValid(s, p, id);
  }

  // ---------------------------------------------------------------- conservation

  // How often j is queued: a job can only sit in the queue of its own class.
  ghost function Count(s: State, j: Job): nat { multiset(s.Queue(ClassOf(j)))[j] }

  lemma DropCount(s: State, p: PriorityClass, i: nat, j: Job)
    requires s.Valid() && i < |s.Queue(p)|
    ensures Count(DropAt(s, p, i), j) + (if s.Queue(p)[i] == j then 1 else 0) == Count(s, j)
  {
    hide ClassOf, Weight;
    assert Filed(p, s.Queue(p));
    RemoveAtMultiset(s.Queue(p), i);
    assert multiset(RemoveAt(s.Queue(p), i)) == multiset(s.Queue(p)) - multiset{s.Queue(p)[i]};
  }

  lemma DequeueConserves(s: State, ok: Filter, j: Job)
    requires s.Valid()
    ensures Count(Dequeued(s, ok).state, j) + multiset(ToSeq(Dequeued(s, ok).job))[j] == Count(s, j)
  {
    hide Dequeued, FirstEligible, State.Valid, ClassOf;
    var p, i := DequeueMeaning(s, ok);
    var r := Dequeued(s, ok);
    assert Refilled(s).Queue(p) == s.Queue(p) && Refilled(s).Queue(ClassOf(j)) == s.Queue(ClassOf(j));
    if r.job.Some? {
      DropCount(s, p, i, j);
      assert r.state.Queue(ClassOf(j)) == DropAt(s, p, i).Queue(ClassOf(j));
    }
  }

  lemma StepConserves(s: State, op: Op, j: Job)
    requires s.Valid()
    ensures Count(Apply(s, op), j) + multiset(ReturnedBy(s, op))[j] + multiset(DiscardedBy(s, op))[j]
         == Count(s, j) + multiset(AddedBy(op))[j]
  {
    match op
    case Enqueue(e) =>
    case Dequeue(ok) => DequeueConserves(s, ok, j);
    case Remove(p, id) =>
      var i := FirstWithId(s.Queue(p), id);
      if i < |s.Queue(p)| { DropCount(s, p, i, j); }
  }

  // Over any run, every copy of every job is accounted for: initially queued or enqueued on
  // the one side; queued, returned by Dequeue or taken out by Remove on the other.
  lemma {:induction false} Conservation(s: State, ops: seq<Op>, j: Job)
    requires s.Valid()
    ensures After(s, ops).Valid()
    ensures Count(After(s, ops), j) + multiset(Returned(s, ops))[j] + multiset(Discarded(s, ops))[j]
         == Count(s, j) + multiset(Added(ops))[j]
    decreases |ops|
  {
    if |ops| > 0 {
      StepConserves(s, ops[0], j);
      ApplyValid(s, ops[0]);
      Conservation(Apply(s, ops[0]), ops[1..], j);
    }
  }

  lemma Distinct(s: seq<Job>, j: Job)
    requires forall a, b :: 0 <= a < b < |s| ==> s[a].id != s[b].id
    requires j in s
    ensures multiset(s)[j] == 1
  {
    var i :| 0 <= i < |s| && s[i] == j;
    RemoveAtMultiset(s, i);
    assert j !in RemoveAt(s, i);
  }

  // From an empty scheduler, with distinct IDs, each enqueued job is exactly one of: still
  // queued, returned by exactly one Dequeue, or taken out by exactly one Remove.
  lemma EachJobOnce(ops: seq<Op>, j: Job)
    requires forall a, b :: 0 <= a < b < |Added(ops)| ==> Added(ops)[a].id != Added(ops)[b].id
    ensures EMPTY.Valid()
    ensures j in Added(ops) ==>
      Count(After(EMPTY, ops), j) + multiset(Returned(EMPTY, ops))[j] + multiset(Discarded(EMPTY, ops))[j] == 1
    ensures j !in Added(ops) ==>
      !After(EMPTY, ops).Holds(j) && j !in Returned(EMPTY, ops) && j !in Discarded(EMPTY, ops)
  {
    assert forall p :: EMPTY.Queue(p) == [];
    Conservation(EMPTY, ops, j);
    if j in Added(ops) { Distinct(Added(ops), j); }
  }

  // ---------------------------------------------------------------- bounded overtaking

  // a divided by w, rounded up.
  function CeilDiv(a: nat, w: nat): nat
    requires w > 0
  {
    if a == 0 then 0 else if a <= w then 1 else 1 + CeilDiv(a - w, w)
  }

  lemma {:induction false} CeilDivMeaning(a: nat, w: nat)
    requires w > 0
    ensures a <= CeilDiv(a, w) * w < a + w
  {
    if a > w { CeilDivMeaning(a - w, w); }
  }

  lemma {:induction false} CeilDivMonotone(a: nat, b: nat, w: nat)
    requires w > 0 && a <= b
    ensures CeilDiv(a, w) <= CeilDiv(b, w)
  {
    if a > w { CeilDivMonotone(a - w, b - w, w); }
  }

  // An upper bound on the number of Dequeue calls before the job at index k of class p comes
  // out: the credit left now, and a full refill for every w(p) jobs of p it still lacks.
  function Bound(s: State, p: PriorityClass, k: nat): int
    requires Known(p)
  {
    s.CreditSum() + 31 * CeilDiv(if k + 1 > s.Credit(p) then k + 1 - s.Credit(p) else 0, Weight(p))
  }

  lemma SumBoundsCredit(s: State, p: PriorityClass)
    requires s.Valid() && Known(p)
    ensures 0 <= s.Credit(p) <= s.CreditSum() <= 31
  {
    assert forall q :: Known(q) ==> 0 <= s.Credit(q) <= Weight(q);
    assert Known(Critical) && Known(High) && Known(Normal) && Known(Low) && Known(Background);
  }

  // The bound is non-negative only while the job waits, and covers the worst case over all credits.
  lemma BoundRange(s: State, p: PriorityClass, k: nat)
    requires s.Valid() && Known(p)
    ensures 0 < Bound(s, p, k) <= 31 * (1 + CeilDiv(k + 1, Weight(p)))
  {
    SumBoundsCredit(s, p);
    var need := if k + 1 > s.Credit(p) then k + 1 - s.Credit(p) else 0;
    CeilDivMonotone(need, k + 1, Weight(p));
  }

  lemma BoundSmallerIndex(s: State, p: PriorityClass, k: nat, h: nat)
    requires s.Valid() && Known(p) && h <= k
    ensures Bound(s, p, h) <= Bound(s, p, k)
  {
    SumBoundsCredit(s, p);
    CeilDivMonotone(if h + 1 > s.Credit(p) then h + 1 - s.Credit(p) else 0,
                    if k + 1 > s.Credit(p) then k + 1 - s.Credit(p) else 0, Weight(p));
  }

  // After a refill and one dequeue the bound has dropped below its value before.
  lemma BoundAfterRefill(s: State, p: PriorityClass, k: nat, t: State, h: nat)
    requires s.Valid() && Known(p) && t.Valid()
    requires s.Credit(p) == 0 && t.CreditSum() == 30
    requires (h == k && t.Credit(p) == Weight(p)) || (k > 0 && h == k - 1 && t.Credit(p) == Weight(p) - 1)
    ensures Bound(t, p, h) < Bound(s, p, k)
  {
    SumBoundsCredit(s, p);
  }

  // Where the job at index k of class p stands after another job leaves position i of class q.
  lemma TakeShifts(s: State, q: PriorityClass, i: nat, p: PriorityClass, k: nat) returns (h: nat)
    requires i < |s.Queue(q)| && k < |s.Queue(p)| && (q == p ==> i != k)
    ensures h == if q == p && i < k then k - 1 else k
    ensures h < |DropAt(s, q, i).Queue(p)| && DropAt(s, q, i).Queue(p)[h] == s.Queue(p)[k]
    ensures TakeAt(s, q, i).Queue(p) == DropAt(s, q, i).Queue(p)
  {
    h := if q == p && i < k then k - 1 else k;
  }

  lemma PaidApproaches(s: State, q: PriorityClass, i: nat, p: PriorityClass, k: nat) returns (h: nat)
    requires s.Valid() && Known(p) && Known(q) && k < |s.Queue(p)| && i < |s.Queue(q)|
    requires q == p ==> i < k
    requires s.Credit(q) > 0
    ensures var t := TakeAt(s, q, i);
      h < |t.Queue(p)| && t.Queue(p)[h] == s.Queue(p)[k] && Bound(t, p, h) < Bound(s, p, k)
  {
    hide State.Valid, Weight, CeilDiv, State.CreditSum;
    h := TakeShifts(s, q, i, p, k);
    TakeAtValid(s, q, i);
    assert TakeAt(s, q, i).Credit(p) == s.Credit(p) - if q == p then 1 else 0;
    BoundPaid(s, TakeAt(s, q, i), p, k, h);
  }

  lemma BoundPaid(s: State, t: State, p: PriorityClass, k: nat, h: nat)
    requires s.Valid() && t.Valid() && Known(p) && h <= k && t.CreditSum() == s.CreditSum() - 1
    requires t.Credit(p) == s.Credit(p) || (h < k && t.Credit(p) == s.Credit(p) - 1)
    ensures Bound(t, p, h) < Bound(s, p, k)
  {
    hide State.CreditSum;
    SumBoundsCredit(t, p);
    CeilDivMonotone(if h + 1 > t.Credit(p) then h + 1 - t.Credit(p) else 0,
                    if k + 1 > s.Credit(p) then k + 1 - s.Credit(p) else 0, Weight(p));
  }

  lemma RefillApproaches(s: State, q: PriorityClass, i: nat, p: PriorityClass, k: nat) returns (h: nat)
    requires s.Valid() && Known(p) && Known(q) && k < |s.Queue(p)| && i < |s.Queue(q)|
    requires q == p ==> i < k
    requires s.Credit(p) == 0
    ensures TakeAt(Refilled(s), q, i).Valid()
    ensures var t := TakeAt(Refilled(s), q, i);
      h < |t.Queue(p)| && t.Queue(p)[h] == s.Queue(p)[k] && Bound(t, p, h) < Bound(s, p, k)
  {
    var f := Refilled(s);
    RefilledValid(s);
    assert f.Queue(p) == s.Queue(p) && f.Queue(q) == s.Queue(q);
    h := TakeShifts(f, q, i, p, k);
    TakeAtValid(f, q, i);
    assert TakeAt(f, q, i).Credit(p) == f.Credit(p) - if q == p then 1 else 0;
    BoundAfterRefill(s, p, k, TakeAt(f, q, i), h);
  }

  // One Dequeue whose filter accepts the job at index k of class p either returns that job,
  // or moves it no further back and lowers the bound.
  lemma DequeueApproaches(s: State, ok: Filter, p: PriorityClass, k: nat) returns (h: nat)
    requires s.Valid() && Known(p) && k < |s.Queue(p)| && ok(s.Queue(p)[k])
    ensures Dequeued(s, ok).state.Valid() && Dequeued(s, ok).job.Some?
    ensures Dequeued(s, ok).job.value == s.Queue(p)[k]
         || (h < |Dequeued(s, ok).state.Queue(p)| && Dequeued(s, ok).state.Queue(p)[h] == s.Queue(p)[k]
             && Bound(Dequeued(s, ok).state, p, h) < Bound(s, p, k))
  {
    h := 0;
    var q, i := DequeueMeaning(s, ok);
    assert s.Eligible(p, ok);
    if exists c :: Known(c) && s.Eligible(c, ok) && s.Credit(c) > 0 {
      if !(q == p && i == k) { h := PaidApproaches(s, q, i, p, k); }
    } else {
      SumBoundsCredit(s, p);
      assert Refilled(s).Queue(p) == s.Queue(p) && Refilled(s).Queue(q) == s.Queue(q);
      if !(q == p && i == k) { h := RefillApproaches(s, q, i, p, k); }
    }
  }

  // Operations that neither remove job j nor refuse it.
  predicate Tolerates(op: Op, j: Job) {
    match op
    case Enqueue(_) => true
    case Dequeue(ok) => ok(j)
    case Remove(_, id) => id != j.id
  }

  lemma SameCreditsBound(s: State, t: State, p: PriorityClass, k: nat)
    requires s.credits == t.credits && Known(p)
    ensures Bound(s, p, k) == Bound(t, p, k)
  {
  }

  lemma RemoveTracks(s: State, q: PriorityClass, id: string, p: PriorityClass, k: nat) returns (h: nat)
    requires s.Valid() && Known(p) && k < |s.Queue(p)| && s.Queue(p)[k].id != id
    ensures var t := RemovedIn(s, q, id);
      h < |t.Queue(p)| && t.Queue(p)[h] == s.Queue(p)[k] && Bound(t, p, h) <= Bound(s, p, k)
  {
    h := k;
    var i := FirstWithId(s.Queue(q), id);
    if i < |s.Queue(q)| {
      h := TakeShifts(s, q, i, p, k);
      BoundSmallerIndex(s, p, k, h);
      SameCreditsBound(s, DropAt(s, q, i), p, h);
    }
  }

  lemma StepTracks(s: State, op: Op, p: PriorityClass, k: nat) returns (h: nat)
    requires s.Valid() && Known(p) && k < |s.Queue(p)| && Tolerates(op, s.Queue(p)[k])
    ensures Apply(s, op).Valid()
    ensures s.Queue(p)[k] in ReturnedBy(s, op)
         || (h < |Apply(s, op).Queue(p)| && Apply(s, op).Queue(p)[h] == s.Queue(p)[k]
             && Bound(Apply(s, op), p, h) <= Bound(s, p, k) - if op.Dequeue? then 1 else 0)
  {
    ApplyValid(s, op);
    match op
    case Enqueue(j) =>
      h := k;
      SameCreditsBound(s, Enqueued(s, j), p, k);
    case Dequeue(ok) =>
      h := DequeueApproaches(s, ok, p, k);
    case Remove(q, id) =>
      h := RemoveTracks(s, q, id, p, k);
  }

  lemma {:induction false} ReturnedWithinBound(s: State, ops: seq<Op>, p: PriorityClass, k: nat)
    requires s.Valid() && Known(p) && k < |s.Queue(p)|
    requires forall op :: op in ops ==> Tolerates(op, s.Queue(p)[k])
    requires Dequeues(ops) >= Bound(s, p, k)
    ensures s.Queue(p)[k] in Returned(s, ops)
    decreases |ops|
  {
    BoundRange(s, p, k);
    assert |ops| > 0;
    var j := s.Queue(p)[k];
    assert ops[0] in ops && forall op :: op in ops[1..] ==> op in ops;
    var h := StepTracks(s, ops[0], p, k);
    if j !in ReturnedBy(s, ops[0]) {
      ReturnedWithinBound(Apply(s, ops[0]), ops[1..], p, h);
    }
  }

  // Bounded overtaking: a job at index k of class p that every filter accepts is returned
  // within 31 * (1 + ceil((k + 1) / weight(p))) Dequeue calls, whatever is enqueued or removed
  // in between: n rounds that hold k + 1 jobs of class p, and one more, are enough.
  lemma BoundedOvertaking(s: State, ops: seq<Op>, p: PriorityClass, k: nat, n: nat)
    requires s.Valid() && Known(p) && k < |s.Queue(p)|
    requires forall op :: op in ops ==> Tolerates(op, s.Queue(p)[k])
    requires n * Weight(p) >= k + 1 && Dequeues(ops) >= 31 * (1 + n)
    ensures s.Queue(p)[k] in Returned(s, ops)
  {
    hide CeilDiv, State.Valid, Tolerates;
    CeilDivLeast(k + 1, Weight(p), n);
    BoundRange(s, p, k);
    ReturnedWithinBound(s, ops, p, k);
  }

  // CeilDiv(a, w) is the least n with n * w >= a.
  lemma CeilDivLeast(a: nat, w: nat, n: nat)
    requires w > 0
    ensures n * w >= a <==> n >= CeilDiv(a, w)
  {
    var m := CeilDiv(a, w);
    CeilDivMeaning(a, w);
    if n >= m { Times(m, n, w); } else { Times(n + 1, m, w); }
  }

  lemma Times(a: nat, b: nat, w: nat)
    requires a <= b
    ensures a * w <= b * w
  {
  }

  // ---------------------------------------------------------------- classes outside the order

  lemma UnknownStays(s: State, op: Op, j: Job)
    requires s.Valid() && s.Holds(j) && !Known(ClassOf(j))
    requires op.Remove? ==> op.id != j.id
    ensures Apply(s, op).Holds(j) && j !in ReturnedBy(s, op)
  {
    hide Dequeued, FirstEligible;
    var p := ClassOf(j);
    var k :| 0 <= k < |s.Queue(p)| && s.Queue(p)[k] == j;
    match op
    case Enqueue(e) =>
      assert Enqueued(s, e).Queue(p)[k] == j;
    case Dequeue(ok) =>
      var q, i := DequeueMeaning(s, ok);
      if Dequeued(s, ok).job.Some? {
        assert Refilled(s).Queue(q) == s.Queue(q);
        assert Filed(q, s.Queue(q));
        assert Dequeued(s, ok).state.Queue(p) == s.Queue(p);
      } else {
        assert Dequeued(s, ok).state.Queue(p) == s.Queue(p);
      }
    case Remove(q, id) =>
      var i := FirstWithId(s.Queue(q), id);
      if i < |s.Queue(q)| {
        var h := TakeShifts(s, q, i, p, k);
      }
  }

  // A job filed under an unknown class stays queued until its ID is removed: Dequeue never
  // returns it, whatever the filters say.
  lemma {:induction false} UnknownClassNeverReturned(s: State, ops: seq<Op>, j: Job)
    requires s.Valid() && s.Holds(j) && !Known(ClassOf(j))
    requires forall op :: op in ops && op.Remove? ==> op.id != j.id
    ensures After(s, ops).Holds(j) && j !in Returned(s, ops)
    decreases |ops|
  {
    if |ops| > 0 {
      assert ops[0] in ops && forall op :: op in ops[1..] ==> op in ops;
      UnknownStays(s, ops[0], j);
      ApplyValid(s, ops[0]);
      UnknownClassNeverReturned(Apply(s, ops[0]), ops[1..], j);
    }
  }

  // ---------------------------------------------------------------- exact weighted share

  // n Dequeues in a row under one filter.
  function Drain(ok: Filter, n: nat): seq<Op> { seq(n, _ => Dequeue(ok)) }

  ghost predicate AcceptsAll(s: State, ok: Filter) {
    forall p, i :: 0 <= i < |s.Queue(p)| ==> ok(s.Queue(p)[i])
  }

  function DropPrefix(s: State, p: PriorityClass, n: nat): State
    requires n <= |s.Queue(p)|
  {
    s.(queues := s.queues[p := s.Queue(p)[n..]])
  }

  // Serving the first n jobs of class p, paying n credits.
  function TakePrefix(s: State, p: PriorityClass, n: nat): State
    requires n <= |s.Queue(p)|
  {
    if n == 0 then s else DropPrefix(s, p, n).(credits := s.credits[p := s.Credit(p) - n])
  }

  // Position c of the order is the first with credit.
  ghost predicate Turn(s: State, c: nat)
    requires c < CLASSES
  {
    s.Credit(ClassAt(c)) > 0 && forall h: nat :: h < c ==> s.Credit(ClassAt(h)) <= 0
  }

  lemma TurnServes(s: State, ok: Filter, c: nat, q: PriorityClass)
    requires c < CLASSES && Turn(s, c) && Servable(s, true, ok, c) && Serves(s, 0, true, ok, q)
    ensures q == ClassAt(c)
  {
    var k: nat :| k < CLASSES && ClassAt(k) == q && Servable(s, true, ok, k)
      && forall h: nat :: h < k ==> !Servable(s, true, ok, h);
    assert k == c;
  }

  lemma HeadTaken(s: State, ok: Filter, p: PriorityClass)
    requires s.Queue(p) != [] && AcceptsAll(s, ok)
    ensures FirstEligible(s.Queue(p), ok) == 0 && TakeAt(s, p, 0) == TakePrefix(s, p, 1)
    ensures s.Eligible(p, ok) && AcceptsAll(TakePrefix(s, p, 1), ok)
  {
    assert ok(s.Queue(p)[0]);
    assert RemoveAt(s.Queue(p), 0) == s.Queue(p)[1..];
    var t := TakePrefix(s, p, 1);
    forall r, a | 0 <= a < |t.Queue(r)| ensures ok(t.Queue(r)[a]) {
      assert t.Queue(r)[a] == s.Queue(r)[if r == p then a + 1 else a];
    }
  }

  lemma ServeHead(s: State, ok: Filter, c: nat)
    requires s.Valid() && c < CLASSES && Turn(s, c) && s.Queue(ClassAt(c)) != [] && AcceptsAll(s, ok)
    ensures Dequeued(s, ok) == Taken(Some(s.Queue(ClassAt(c))[0]), TakePrefix(s, ClassAt(c), 1))
    ensures TakePrefix(s, ClassAt(c), 1).Valid() && AcceptsAll(TakePrefix(s, ClassAt(c), 1), ok)
  {
    hide Dequeued, AcceptsAll, TakePrefix, ClassAt;
    var p := ClassAt(c);
    assert Known(p) by { ClassAtKnown(c); }
    var q, i := DequeueMeaning(s, ok);
    HeadTaken(s, ok, p);
    TurnServes(s, ok, c, q);
  }

  lemma ClassAtKnown(c: nat)
    requires c < CLASSES
    ensures Known(ClassAt(c))
  {
  }

  lemma TakePrefixSplit(s: State, p: PriorityClass, n: nat)
    requires 0 < n <= |s.Queue(p)|
    ensures TakePrefix(s, p, 1).Queue(p) == s.Queue(p)[1..]
    ensures TakePrefix(s, p, 1).Credit(p) == s.Credit(p) - 1
    ensures TakePrefix(TakePrefix(s, p, 1), p, n - 1) == TakePrefix(s, p, n)
  {
    var t := TakePrefix(s, p, 1);
    if n > 1 {
      assert s.Queue(p)[1..][n - 1..] == s.Queue(p)[n..];
      assert t.queues[p := t.Queue(p)[n - 1..]] == s.queues[p := s.Queue(p)[n..]];
      assert t.credits[p := t.Credit(p) - (n - 1)] == s.credits[p := s.Credit(p) - n];
    }
  }

  // While it is class ClassAt(c)'s turn, the next n <= credit Dequeues return its first n jobs in order.
  lemma {:induction false} ServeBlock(s: State, ok: Filter, c: nat, n: nat)
    requires s.Valid() && c < CLASSES && AcceptsAll(s, ok)
    requires n > 0 ==> Turn(s, c)
    requires n <= s.Credit(ClassAt(c)) && n <= |s.Queue(ClassAt(c))|
    ensures After(s, Drain(ok, n)) == TakePrefix(s, ClassAt(c), n)
    ensures Returned(s, Drain(ok, n)) == s.Queue(ClassAt(c))[..n]
    ensures TakePrefix(s, ClassAt(c), n).Valid() && AcceptsAll(TakePrefix(s, ClassAt(c), n), ok)
    decreases n
  {
    hide Dequeued, State.Valid, AcceptsAll, ClassAt;
    if n > 0 {
      var p := ClassAt(c);
      ServeHead(s, ok, c);
      var t := TakePrefix(s, p, 1);
      TakePrefixSplit(s, p, n);
      var ops := Drain(ok, n);
      assert ops[0] == Dequeue(ok) && ops[1..] == Drain(ok, n - 1);
      if n > 1 { TurnStays(s, c); }
      ServeBlock(t, ok, c, n - 1);
      assert [s.Queue(p)[0]] + s.Queue(p)[1..][..n - 1] == s.Queue(p)[..n];
    }
  }

  lemma TurnStays(s: State, c: nat)
    requires c < CLASSES && Turn(s, c) && s.Credit(ClassAt(c)) > 1 && s.Queue(ClassAt(c)) != []
    ensures Turn(TakePrefix(s, ClassAt(c), 1), c)
  {
    forall h: nat | h < c ensures TakePrefix(s, ClassAt(c), 1).Credit(ClassAt(h)) <= 0 { OrderDistinct(h, c); }
  }

  lemma {:induction false} RunConcat(s: State, a: seq<Op>, b: seq<Op>)
    ensures After(s, a + b) == After(After(s, a), b)
    ensures Returned(s, a + b) == Returned(s, a) + Returned(After(s, a), b)
    decreases |a|
  {
    if |a| == 0 {
      assert a + b == b;
    } else {
      assert (a + b)[0] == a[0] && (a + b)[1..] == a[1..] + b;
      RunConcat(Apply(s, a[0]), a[1..], b);
    }
  }

  // Credits as they stand when it is position c's turn and its credit is untouched.
  ghost predicate CreditsAt(s: State, c: nat) {
    forall h: nat :: h < CLASSES ==> s.Credit(ClassAt(h)) == if h < c then 0 else Weight(ClassAt(h))
  }

  function WeightsFrom(c: nat): nat
    requires c <= CLASSES
    decreases CLASSES - c
  {
    if c == CLASSES then 0 else Weight(ClassAt(c)) + WeightsFrom(c + 1)
  }

  // The first w(p) jobs of each class from position c on, class after class.
  function Heads(s: State, c: nat): seq<Job>
    requires c <= CLASSES
    requires forall h: nat :: c <= h < CLASSES ==> Weight(ClassAt(h)) <= |s.Queue(ClassAt(h))|
    decreases CLASSES - c
  {
    if c == CLASSES then [] else s.Queue(ClassAt(c))[..Weight(ClassAt(c))] + Heads(s, c + 1)
  }

  // t is s after class ClassAt(h), for every h >= c, lost its first w jobs.
  ghost predicate HeadsGone(s: State, t: State, c: nat) {
    forall h: nat :: h < CLASSES ==>
      (h < c ==> t.Queue(ClassAt(h)) == s.Queue(ClassAt(h)))
      && (h >= c ==>
            && Weight(ClassAt(h)) <= |s.Queue(ClassAt(h))|
            && t.Queue(ClassAt(h)) == s.Queue(ClassAt(h))[Weight(ClassAt(h))..])
  }

  lemma OrderDistinct(a: nat, b: nat)
    requires a < CLASSES && b < CLASSES && a != b
    ensures ClassAt(a) != ClassAt(b)
  {
  }

  lemma HeadsLocal(s: State, t: State, c: nat)
    requires c <= CLASSES
    requires forall h: nat :: c <= h < CLASSES ==>
      Weight(ClassAt(h)) <= |s.Queue(ClassAt(h))| && t.Queue(ClassAt(h)) == s.Queue(ClassAt(h))
    ensures Heads(s, c) == Heads(t, c)
    decreases CLASSES - c
  {
    if c < CLASSES { HeadsLocal(s, t, c + 1); }
  }

  // The turn of position c, with its credit untouched.
  lemma ServeClass(s: State, ok: Filter, c: nat) returns (t: State)
    requires s.Valid() && c < CLASSES && AcceptsAll(s, ok) && CreditsAt(s, c)
    requires Weight(ClassAt(c)) <= |s.Queue(ClassAt(c))|
    ensures t == After(s, Drain(ok, Weight(ClassAt(c)))) && t.Valid() && AcceptsAll(t, ok) && CreditsAt(t, c + 1)
    ensures Returned(s, Drain(ok, Weight(ClassAt(c)))) == s.Queue(ClassAt(c))[..Weight(ClassAt(c))]
    ensures t.Queue(ClassAt(c)) == s.Queue(ClassAt(c))[Weight(ClassAt(c))..]
    ensures forall h: nat :: h < CLASSES && h != c ==> t.Queue(ClassAt(h)) == s.Queue(ClassAt(h))
  {
    hide After, Returned, Dequeued, State.Valid, AcceptsAll;
    var p := ClassAt(c);
    ServeBlock(s, ok, c, Weight(p));
    t := TakePrefix(s, p, Weight(p));
    forall h: nat | h < CLASSES && h != c
      ensures t.Queue(ClassAt(h)) == s.Queue(ClassAt(h)) && t.Credit(ClassAt(h)) == s.Credit(ClassAt(h))
    {
      OrderDistinct(h, c);
    }
  }

  lemma GoneCompose(s: State, t: State, u: State, c: nat)
    requires c < CLASSES && Weight(ClassAt(c)) <= |s.Queue(ClassAt(c))|
    requires t.Queue(ClassAt(c)) == s.Queue(ClassAt(c))[Weight(ClassAt(c))..]
    requires forall h: nat :: h < CLASSES && h != c ==> t.Queue(ClassAt(h)) == s.Queue(ClassAt(h))
    requires HeadsGone(t, u, c + 1)
    ensures HeadsGone(s, u, c)
  {
    hide ClassAt, Weight;
  }

  lemma DrainSplit(ok: Filter, m: nat, n: nat)
    ensures Drain(ok, m) + Drain(ok, n) == Drain(ok, m + n)
  {
  }

  lemma NoDequeue(s: State, ok: Filter)
    ensures After(s, Drain(ok, WeightsFrom(CLASSES))) == s && Returned(s, Drain(ok, WeightsFrom(CLASSES))) == []
    ensures Heads(s, CLASSES) == [] && HeadsGone(s, s, CLASSES)
  {
  }

  lemma {:induction false} ServeRound(s: State, ok: Filter, c: nat)
    requires s.Valid() && c <= CLASSES && AcceptsAll(s, ok) && CreditsAt(s, c)
    requires forall h: nat :: c <= h < CLASSES ==> Weight(ClassAt(h)) <= |s.Queue(ClassAt(h))|
    ensures Returned(s, Drain(ok, WeightsFrom(c))) == Heads(s, c)
    ensures var t := After(s, Drain(ok, WeightsFrom(c)));
      t.Valid() && AcceptsAll(t, ok) && CreditsAt(t, CLASSES) && HeadsGone(s, t, c)
    decreases CLASSES - c
  {
    hide Dequeued, State.Valid, AcceptsAll, CreditsAt, ClassAt, Drain, Weight, After, Returned, HeadsGone;
    if c == CLASSES {
      NoDequeue(s, ok);
    } else {
      var t := ServeClass(s, ok, c);
      ServeRound(t, ok, c + 1);
      HeadsLocal(s, t, c + 1);
      var m, n := Weight(ClassAt(c)), WeightsFrom(c + 1);
      DrainSplit(ok, m, n);
      RunConcat(s, Drain(ok, m), Drain(ok, n));
      GoneCompose(s, t, After(t, Drain(ok, n)), c);
    }
  }

  // With no credit left anywhere, a Dequeue behaves as if the credits had just been refilled.
  lemma SpentActsFull(s: State, ok: Filter)
    requires s.Valid() && AcceptsAll(s, ok) && CreditsAt(s, CLASSES) && s.Queue(Critical) != []
    ensures Dequeued(s, ok) == Dequeued(Refilled(s), ok)
  {
    var t := Refilled(s);
    RefilledValid(s);
    assert forall p :: t.Queue(p) == s.Queue(p);
    ServeHead(t, ok, 0);
    assert forall p :: Known(p) ==> s.Credit(p) <= 0 by {
      forall p | Known(p) ensures s.Credit(p) <= 0 {
        OrderCoversKnown(p);
      }
    }
    var q, i := DequeueMeaning(s, ok);
    assert ok(s.Queue(Critical)[0]);
    assert s.Eligible(Critical, ok) && Servable(s, false, ok, 0);
    var k: nat :| k < CLASSES && ClassAt(k) == q && Servable(s, false, ok, k)
      && forall h: nat :: h < k ==> !Servable(s, false, ok, h);
    assert k == 0;
    assert RemoveAt(s.Queue(Critical), 0) == s.Queue(Critical)[1..];
  }

  // At least n * w jobs are queued in every class.
  ghost predicate Enough(s: State, n: nat) {
    && 16 * n <= |s.Queue(Critical)| && 8 * n <= |s.Queue(High)| && 4 * n <= |s.Queue(Normal)|
    && 2 * n <= |s.Queue(Low)| && n <= |s.Queue(Background)|
  }

  // The expected output of n rounds: each round is 16 Critical, 8 High, 4 Normal, 2 Low and
  // 1 Background job, each class in FIFO order.
  ghost function Rounds(s: State, n: nat): seq<Job>
    requires Enough(s, n)
    decreases n
  {
    if n == 0 then [] else
    Rounds(s, n - 1)
    + s.Queue(Critical)[16 * (n - 1)..16 * n] + s.Queue(High)[8 * (n - 1)..8 * n]
    + s.Queue(Normal)[4 * (n - 1)..4 * n] + s.Queue(Low)[2 * (n - 1)..2 * n]
    + s.Queue(Background)[n - 1..n]
  }

  // t is s after n rounds.
  ghost predicate AfterRounds(s: State, t: State, n: nat)
    requires Enough(s, n)
  {
    && t.Queue(Critical) == s.Queue(Critical)[16 * n..] && t.Queue(High) == s.Queue(High)[8 * n..]
    && t.Queue(Normal) == s.Queue(Normal)[4 * n..] && t.Queue(Low) == s.Queue(Low)[2 * n..]
    && t.Queue(Background) == s.Queue(Background)[n..]
  }

  lemma HeadsExpanded(s: State)
    requires Enough(s, 1)
    ensures forall h: nat :: h < CLASSES ==> Weight(ClassAt(h)) <= |s.Queue(ClassAt(h))|
    ensures Heads(s, 0) == s.Queue(Critical)[..16] + s.Queue(High)[..8] + s.Queue(Normal)[..4]
                         + s.Queue(Low)[..2] + s.Queue(Background)[..1]
    ensures WeightsFrom(0) == 31
  {
    assert Heads(s, 5) == [] && WeightsFrom(5) == 0;
    assert Heads(s, 4) == s.Queue(Background)[..1] && WeightsFrom(4) == 1;
    assert Heads(s, 3) == s.Queue(Low)[..2] + Heads(s, 4) && WeightsFrom(3) == 3;
    assert Heads(s, 2) == s.Queue(Normal)[..4] + Heads(s, 3) && WeightsFrom(2) == 7;
    assert Heads(s, 1) == s.Queue(High)[..8] + Heads(s, 2) && WeightsFrom(1) == 15;
    assert Heads(s, 0) == s.Queue(Critical)[..16] + Heads(s, 1);
  }

  lemma GoneExpanded(s: State, t: State)
    requires Enough(s, 1) && HeadsGone(s, t, 0)
    ensures AfterRounds(s, t, 1)
  {
    assert ClassAt(0) == Critical && ClassAt(1) == High && ClassAt(2) == Normal && ClassAt(3) == Low
      && ClassAt(4) == Background;
  }

  lemma RoundFromFull(s: State, ok: Filter)
    requires s.Valid() && AcceptsAll(s, ok) && Enough(s, 1) && CreditsAt(s, 0)
    ensures var t := After(s, Drain(ok, 31));
      t.Valid() && AcceptsAll(t, ok) && CreditsAt(t, CLASSES) && AfterRounds(s, t, 1)
    ensures Returned(s, Drain(ok, 31)) == Rounds(s, 1)
  {
    hide After, Returned, Heads, WeightsFrom, HeadsGone, CreditsAt, AcceptsAll;
    HeadsExpanded(s);
    ServeRound(s, ok, 0);
    GoneExpanded(s, After(s, Drain(ok, 31)));
    assert Rounds(s, 0) == [];
  }

  // One full round from full credits or, equally, from no credits.
  lemma OneRound(s: State, ok: Filter)
    requires s.Valid() && AcceptsAll(s, ok) && Enough(s, 1)
    requires CreditsAt(s, 0) || CreditsAt(s, CLASSES)
    ensures var t := After(s, Drain(ok, 31));
      t.Valid() && AcceptsAll(t, ok) && CreditsAt(t, CLASSES) && AfterRounds(s, t, 1)
    ensures Returned(s, Drain(ok, 31)) == Rounds(s, 1)
  {
    if CreditsAt(s, 0) {
      RoundFromFull(s, ok);
    } else {
      var f := Refilled(s);
      RefilledValid(s);
      assert forall p :: f.Queue(p) == s.Queue(p);
      RoundFromFull(f, ok);
      SpentActsFull(s, ok);
      var ops := Drain(ok, 31);
      SameFirstStep(s, f, ops);
      assert Rounds(s, 0) == [] && Rounds(f, 0) == [];
      assert Rounds(s, 1) == Rounds(f, 1);
    }
  }

  lemma SameFirstStep(s: State, f: State, ops: seq<Op>)
    requires |ops| > 0 && ops[0].Dequeue? && Dequeued(s, ops[0].ok) == Dequeued(f, ops[0].ok)
    ensures After(s, ops) == After(f, ops) && Returned(s, ops) == Returned(f, ops)
  {
  }

  // Exact weighted share: from full credits with at least n * weight jobs queued in every
  // class and all of them eligible, the next 31 * n Dequeues are n rounds of exactly 16
  // Critical, 8 High, 4 Normal, 2 Low and 1 Background job, each class in FIFO order.
  lemma {:induction false} WeightedShare(s: State, ok: Filter, n: nat)
    requires s.Valid() && AcceptsAll(s, ok) && Enough(s, n) && s.credits == WEIGHTS
    ensures Returned(s, Drain(ok, 31 * n)) == Rounds(s, n)
    ensures var t := After(s, Drain(ok, 31 * n));
      t.Valid() && AcceptsAll(t, ok) && AfterRounds(s, t, n) && (CreditsAt(t, 0) || CreditsAt(t, CLASSES))
    decreases n
  {
    hide After, Returned, Drain, Rounds, AfterRounds, State.Valid, AcceptsAll, CreditsAt;
    if n == 0 {
      NoRounds(s, ok);
    } else {
      WeightedShare(s, ok, n - 1);
      var a := Drain(ok, 31 * (n - 1));
      var t := After(s, a);
      EnoughLeft(s, t, n);
      OneRound(t, ok);
      RunConcat(s, a, Drain(ok, 31));
      DrainSplit(ok, 31 * (n - 1), 31);
      RoundsStep(s, t, n);
    }
  }

  lemma NoRounds(s: State, ok: Filter)
    requires s.Valid() && s.credits == WEIGHTS
    ensures After(s, Drain(ok, 31 * 0)) == s && Returned(s, Drain(ok, 31 * 0)) == [] == Rounds(s, 0)
    ensures AfterRounds(s, s, 0) && CreditsAt(s, 0)
  {
    RefilledValid(s);
  }

  lemma EnoughLeft(s: State, t: State, n: nat)
    requires n > 0 && Enough(s, n) && AfterRounds(s, t, n - 1)
    ensures Enough(t, 1)
  {
  }

  lemma RoundsStep(s: State, t: State, n: nat)
    requires n > 0 && Enough(s, n) && Enough(t, 1) && AfterRounds(s, t, n - 1)
    ensures Rounds(s, n) == Rounds(s, n - 1) + Rounds(t, 1)
    ensures forall u :: AfterRounds(t, u, 1) ==> AfterRounds(s, u, n)
  {
    assert Rounds(t, 0) == [];
    assert t.Queue(Critical)[..16] == s.Queue(Critical)[16 * (n - 1)..16 * n];
    assert t.Queue(High)[..8] == s.Queue(High)[8 * (n - 1)..8 * n];
    assert t.Queue(Normal)[..4] == s.Queue(Normal)[4 * (n - 1)..4 * n];
    assert t.Queue(Low)[..2] == s.Queue(Low)[2 * (n - 1)..2 * n];
    assert t.Queue(Background)[..1] == s.Queue(Background)[n - 1..n];
  }
}
