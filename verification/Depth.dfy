// How deep the queue can get: the bound of Slots.QueueDepthBound is reached for every capacity
// and every number of submitters.

module Depth {
  import opened Option
  import opened Executions
  import opened Scheduler
  import opened Engine
  import opened Slots

  // Distinct IDs.
  function Name(i: nat): string { seq(i, _ => 'a') }

  function JobNo(i: nat): Job { Job(Name(i), Normal, "local") }

  // ---------------------------------------------------------------- runs with few submitters

  lemma {:induction false} AtMostAppend(c: Config, s: System, a: seq<Action>, b: seq<Action>, n: nat)
    requires AtMostSubmitting(c, s, a, n) && AtMostSubmitting(c, Run(c, s, a), b, n)
    ensures AtMostSubmitting(c, s, a + b, n)
    decreases |a|
  {
    if |a| == 0 {
      assert a + b == b;
    } else {
      assert (a + b)[1..] == a[1..] + b;
      AtMostAppend(c, Step(c, s, a[0]), a[1..], b, n);
    }
  }

  lemma {:induction false} AtMostMore(c: Config, s: System, a: seq<Action>, n: nat, m: nat)
    requires AtMostSubmitting(c, s, a, n) && n <= m
    ensures AtMostSubmitting(c, s, a, m)
    decreases |a|
  {
    if |a| > 0 { AtMostMore(c, Step(c, s, a[0]), a[1..], n, m); }
  }

  // A run from INIT with at most n submitters at a time.
  ghost predicate Gets(c: Config, n: nat, acts: seq<Action>, s: System) {
    AtMostSubmitting(c, INIT, acts, n) && Run(c, INIT, acts) == s
  }

  lemma GetsOn(c: Config, n: nat, acts: seq<Action>, s: System, a: Action)
    requires Gets(c, n, acts, s) && |InSubmit(s)| <= n && |InSubmit(Step(c, s, a))| <= n
    ensures Gets(c, n, acts + [a], Step(c, s, a))
  {
    AtMostAppend(c, INIT, acts, [a], n);
    RunAppend(c, INIT, acts, [a]);
  }

  // ---------------------------------------------------------------- the deepest run

  // d executions are queued; the next j are with their submitters, ready to be enqueued; and
  // the dispatcher has not moved.
  ghost predicate Filled(s: System, d: nat, j: nat) {
    && s.pc == Parked && s.sched.Depth() == d && |Slots.Pending(s.entries)| == j
    && (forall id :: id in s.entries ==> |id| < d + j)
    && (forall i: nat :: d <= i < d + j ==> IsAt(s, Name(i), Submitting(true)) && s.entries[Name(i)].job == JobNo(i))
  }

  lemma UnionSize<T>(a: set<T>, b: set<T>)
    ensures |a + b| <= |a| + |b|
  {
    assert a + b == a + (b - a);
    SubsetSize(b - a, b);
  }

  // The same, but the last of the j has not written QUEUED yet.
  ghost predicate Filling(s: System, d: nat, j: nat) {
    && s.pc == Parked && s.sched.Depth() == d && |Slots.Pending(s.entries)| == j + 1
    && (forall id :: id in s.entries ==> |id| < d + j + 1)
    && (forall i: nat :: d <= i < d + j ==> IsAt(s, Name(i), Submitting(true)) && s.entries[Name(i)].job == JobNo(i))
    && IsAt(s, Name(d + j), Submitting(false)) && s.entries[Name(d + j)].job == JobNo(d + j)
  }

  // Another submitter passes the capacity check.
  lemma Admitted(c: Config, s: System, d: nat, j: nat)
    requires Filled(s, d, j) && d < c.queueSize
    ensures Filling(Step(c, s, Admit(JobNo(d + j))), d, j) && Step(c, s, Admit(JobNo(d + j))).entered == s.entered
  {
    var job := JobNo(d + j);
    assert |job.id| == d + j;
    PendingCount(s.entries, job.id, Entry(job, Submitting(false), ExecState.Pending, false, 0, []));
    forall i: nat | d <= i < d + j ensures Name(i) != Name(d + j) { assert |Name(i)| == i; }
  }

  lemma Marked(c: Config, s: System, d: nat, j: nat)
    requires Filling(s, d, j)
    ensures Filled(Step(c, s, Mark(Name(d + j))), d, j + 1) && Step(c, s, Mark(Name(d + j))).entered == s.entered
  {
    var id := Name(d + j);
    PendingCount(s.entries, id, s.entries[id].(place := Submitting(true), state := ExecState.Queued));
    forall i: nat | d <= i < d + j ensures Name(i) != id { assert |Name(i)| == i; }
  }

  lemma AdmitOne(c: Config, n: nat, acts: seq<Action>, s: System, d: nat, j: nat) returns (more: seq<Action>, t: System)
    requires Gets(c, n, acts, s) && Filled(s, d, j) && s.entered == {} && d < c.queueSize && j < n
    ensures Gets(c, n, more, t) && Filled(t, d, j + 1) && t.entered == {}
  {
    hide Enabled, Next, Gets;
    var a, b := Admit(JobNo(d + j)), Mark(Name(d + j));
    var r := Step(c, s, a);
    t := Step(c, r, b);
    Admitted(c, s, d, j);
    Marked(c, r, d, j);
    GetsOn(c, n, acts, s, a);
    GetsOn(c, n, acts + [a], r, b);
    more := acts + [a] + [b];
  }

  // The first of the waiting submitters enqueues.
  lemma EnterOne(c: Config, n: nat, acts: seq<Action>, s: System, d: nat, j: nat) returns (more: seq<Action>, t: System)
    requires Gets(c, n, acts, s) && Filled(s, d, j) && j > 0 && j + |s.entered| <= n
    ensures Gets(c, n, more, t) && Filled(t, d + 1, j - 1) && |t.entered| <= |s.entered| + 1
    ensures t.entered == s.entered + {Name(d)}
  {
    var id := Name(d);
    t := Step(c, s, Enter(id));
    PendingCount(s.entries, id, t.entries[id]);
    DepthEnqueued(s.sched, JobNo(d));
    GetsOn(c, n, acts, s, Enter(id));
    more := acts + [Enter(id)];
    forall i: nat | d + 1 <= i < d + j
      ensures IsAt(t, Name(i), Submitting(true)) && t.entries[Name(i)].job == JobNo(i)
    {
      assert |Name(i)| == i && |id| == d;
    }
  }

  // And sends its wake-up.
  lemma SignalOne(c: Config, n: nat, acts: seq<Action>, s: System, d: nat, j: nat, id: string)
    returns (more: seq<Action>, t: System)
    requires Gets(c, n, acts, s) && Filled(s, d, j) && s.entered == {id} && j + 1 <= n
    ensures Gets(c, n, more, t) && Filled(t, d, j) && t.entered == {}
  {
    t := Step(c, s, SignalSubmit(id));
    GetsOn(c, n, acts, s, SignalSubmit(id));
    more := acts + [SignalSubmit(id)];
  }

  lemma Unused(c: Config, n: nat)
    requires n >= 1
    ensures Gets(c, n, [], INIT) && Filled(INIT, 0, 0) && INIT.entered == {}
  {
    assert INIT.sched.Depth() == 0;
    assert Slots.Pending(INIT.entries) == {};
  }

  // d Submit calls, one after the other.
  lemma {:induction false} FillSerially(c: Config, n: nat, d: nat) returns (acts: seq<Action>, s: System)
    requires n >= 1 && d <= c.queueSize
    ensures Gets(c, n, acts, s) && Filled(s, d, 0) && s.entered == {}
    decreases d
  {
    hide Gets, Filled;
    if d == 0 {
      acts, s := [], INIT;
      Unused(c, n);
    } else {
      acts, s := FillSerially(c, n, d - 1);
      acts, s := AdmitOne(c, n, acts, s, d - 1, 0);
      acts, s := EnterOne(c, n, acts, s, d - 1, 1);
      acts, s := SignalOne(c, n, acts, s, d, 0, Name(d - 1));
    }
  }

  lemma {:induction false} AdmitMany(c: Config, n: nat, d: nat, j: nat) returns (acts: seq<Action>, s: System)
    requires n >= 1 && d < c.queueSize && j <= n
    ensures Gets(c, n, acts, s) && Filled(s, d, j) && s.entered == {}
    decreases j
  {
    if j == 0 {
      acts, s := FillSerially(c, n, d);
    } else {
      acts, s := AdmitMany(c, n, d, j - 1);
      acts, s := AdmitOne(c, n, acts, s, d, j - 1);
    }
  }

  lemma {:induction false} EnterMany(c: Config, n: nat, d: nat, k: nat) returns (acts: seq<Action>, s: System)
    requires d < c.queueSize && 1 <= n && k <= n
    ensures Gets(c, n, acts, s) && Filled(s, d + k, n - k) && |s.entered| <= k
    decreases k
  {
    if k == 0 {
      acts, s := AdmitMany(c, n, d, n);
    } else {
      acts, s := EnterMany(c, n, d, k - 1);
      acts, s := EnterOne(c, n, acts, s, d + k - 1, n - k + 1);
    }
  }

  // For every capacity and every n, some run with at most n submitters at a time reaches the
  // bound queueSize + n - 1.
  lemma BoundReached(c: Config, n: nat) returns (acts: seq<Action>)
    requires c.queueSize > 0 && n >= 1
    ensures AtMostSubmitting(c, INIT, acts, n) && Run(c, INIT, acts).sched.Depth() == c.queueSize + n - 1
  {
    var s;
    acts, s := EnterMany(c, n, c.queueSize - 1, n);
  }

  // So the queue keeps to its capacity in all runs with at most n submitters at a time exactly
  // when there is only one at a time (or no capacity at all).
  lemma CapacityKeptIff(c: Config, n: nat)
    ensures (forall acts :: AtMostSubmitting(c, INIT, acts, n) ==> Run(c, INIT, acts).sched.Depth() <= c.queueSize)
       <==> (n <= 1 || c.queueSize == 0)
  {
    if n <= 1 || c.queueSize == 0 {
      forall acts | AtMostSubmitting(c, INIT, acts, n) ensures Run(c, INIT, acts).sched.Depth() <= c.queueSize {
        var m := if n == 0 then 1 else n;
        AtMostMore(c, INIT, acts, n, m);
        QueueDepthBound(c, acts, m);
      }
    } else {
      var acts := BoundReached(c, n);
    }
  }
}
