// The weighted-credit priority scheduler of core/execution/scheduler.go.

module Option {
  datatype Option<+T> = None | Some(value: T)
}

// Small facts about sequences and maps of sequences used across the project.
module Collections {
  // s without the element at position i, as Go's append(s[:i], s[i+1:]...).
  function RemoveAt<T>(s: seq<T>, i: nat): (r: seq<T>)
    requires i < |s|
    ensures |r| == |s| - 1
    ensures forall k :: 0 <= k < i ==> r[k] == s[k]
    ensures forall k :: i <= k < |r| ==> r[k] == s[k + 1]
  {
    s[..i] + s[i + 1..]
  }

  lemma RemoveAtMultiset<T>(s: seq<T>, i: nat)
    requires i < |s|
    ensures multiset(RemoveAt(s, i)) + multiset{s[i]} == multiset(s)
  {
    assert s == s[..i] + [s[i]] + s[i + 1..];
  }

  // Total length of the sequences held by a map.
  ghost function TotalLen<K, V>(m: map<K, seq<V>>): nat
    decreases |m|
  {
    if m == map[] then 0 else
      var k :| k in m;
      |m[k]| + TotalLen(m - {k})
  }

  lemma {:induction false} TotalLenSplit<K, V>(m: map<K, seq<V>>, k: K)
    requires k in m
    ensures TotalLen(m) == |m[k]| + TotalLen(m - {k})
    decreases |m|
  {
    var c :| c in m && TotalLen(m) == |m[c]| + TotalLen(m - {c});
    if c != k {
      TotalLenSplit(m - {c}, k);
      TotalLenSplit(m - {k}, c);
      assert m - {c} - {k} == m - {k} - {c};
    }
  }

  lemma TotalLenUpdate<K, V>(m: map<K, seq<V>>, k: K, s: seq<V>)
    ensures TotalLen(m[k := s]) == TotalLen(m) - (if k in m then |m[k]| else 0) + |s|
  {
    TotalLenSplit(m[k := s], k);
    assert m[k := s] - {k} == m - {k};
    if k in m {
      TotalLenSplit(m, k);
    } else {
      assert m - {k} == m;
    }
  }

  lemma {:induction false} TotalLenZero<K, V>(m: map<K, seq<V>>)
    ensures TotalLen(m) == 0 <==> forall k :: k in m ==> m[k] == []
    decreases |m|
  {
    if m != map[] {
      var c :| c in m && TotalLen(m) == |m[c]| + TotalLen(m - {c});
      TotalLenZero(m - {c});
      forall k | k in m && k != c ensures k in m - {c} && (m - {c})[k] == m[k] { }
    }
  }
}

module Scheduler {
  import opened Option
  import opened Collections

  // The five classes the scheduler serves, and any other string a caller may submit.
  datatype PriorityClass = Critical | High | Normal | Low | Background | Custom(name: string)

  // The immutable part of an execution that scheduling looks at.
  datatype Job = Job(id: string, priority: PriorityClass, provider: string)

  // The priority order in which Dequeue visits the classes.
  const CLASSES: nat := 5

  function ClassAt(k: nat): PriorityClass
    requires k < CLASSES
  {
    if k == 0 then Critical else if k == 1 then High else if k == 2 then Normal else if k == 3 then Low else Background
  }

  function RankOf(p: PriorityClass): nat {
    match p
    case Critical => 0
    case High => 1
    case Normal => 2
    case Low => 3
    case _ => 4
  }

  function Weight(p: PriorityClass): nat {
    match p
    case Critical => 16
    case High => 8
    case Normal => 4
    case Low => 2
    case Background => 1
    case Custom(_) => 0
  }

  const WEIGHTS: map<PriorityClass, int> :=
    map[Critical := 16, High := 8, Normal := 4, Low := 2, Background := 1]

  predicate Known(p: PriorityClass) { !p.Custom? }

  // The class a job is filed under: an empty priority means Normal.
  function ClassOf(j: Job): PriorityClass {
    if j.priority == Custom("") then Normal else j.priority
  }

  lemma OrderCoversKnown(p: PriorityClass)
    requires Known(p)
    ensures RankOf(p) < CLASSES && ClassAt(RankOf(p)) == p
  {
  }

  type Filter = Job -> bool

  // Every job of q belongs to class p.
  ghost predicate Filed(p: PriorityClass, q: seq<Job>) {
    forall i :: 0 <= i < |q| ==> ClassOf(q[i]) == p
  }

  // ---------------------------------------------------------------- abstract state

  datatype State = State(queues: map<PriorityClass, seq<Job>>, credits: map<PriorityClass, int>) {
    function Queue(p: PriorityClass): seq<Job> {
      if p in queues then queues[p] else []
    }

    function Credit(p: PriorityClass): int {
      if p in credits then credits[p] else 0
    }

    function CreditSum(): int {
      Credit(Critical) + Credit(High) + Credit(Normal) + Credit(Low) + Credit(Background)
    }

    // Credits exist for exactly the five classes and stay within [0, weight];
    // every job sits in the queue of its own class.
    ghost predicate Valid() {
      && credits.Keys == WEIGHTS.Keys
      && (forall p :: Known(p) ==> 0 <= Credit(p) <= Weight(p))
      && (forall p :: Filed(p, Queue(p)))
    }

    ghost predicate Holds(j: Job) { j in Queue(ClassOf(j)) }

    ghost function Depth(): nat { TotalLen(queues) }

    ghost predicate Eligible(p: PriorityClass, ok: Filter) {
      exists i :: 0 <= i < |Queue(p)| && ok(Queue(p)[i])
    }

    ghost predicate AllEmpty() { Depth() == 0 }
  }

  const EMPTY: State := State(map[], WEIGHTS)

  // ---------------------------------------------------------------- operations on states

  function Enqueued(s: State, j: Job): State {
    s.(queues := s.queues[ClassOf(j) := s.Queue(ClassOf(j)) + [j]])
  }

  // Position of the first job the filter accepts, or |q|.
  function FirstEligible(q: seq<Job>, ok: Filter): (i: nat)
    ensures i <= |q|
    ensures forall k :: 0 <= k < i ==> !ok(q[k])
    ensures i < |q| ==> ok(q[i])
  {
    if q == [] then 0 else if ok(q[0]) then 0 else 1 + FirstEligible(q[1..], ok)
  }

  // Position of the first job with the given ID, or |q|.
  function FirstWithId(q: seq<Job>, id: string): (i: nat)
    ensures i <= |q|
    ensures forall k :: 0 <= k < i ==> q[k].id != id
    ensures i < |q| ==> q[i].id == id
  {
    if q == [] then 0 else if q[0].id == id then 0 else 1 + FirstWithId(q[1..], id)
  }

  function DropAt(s: State, p: PriorityClass, i: nat): State
    requires i < |s.Queue(p)|
  {
    s.(queues := s.queues[p := RemoveAt(s.Queue(p), i)])
  }

  // Taking the job at position i of class p also pays one credit of p.
  function TakeAt(s: State, p: PriorityClass, i: nat): State
    requires i < |s.Queue(p)|
  {
    DropAt(s, p, i).(credits := s.credits[p := s.Credit(p) - 1])
  }

  function Refilled(s: State): State { s.(credits := WEIGHTS) }

  datatype Taken = Taken(job: Option<Job>, state: State)

  function FoundAndRemoved(s: State, p: PriorityClass, ok: Filter): Taken {
    var i := FirstEligible(s.Queue(p), ok);
    if i < |s.Queue(p)| then Taken(Some(s.Queue(p)[i]), TakeAt(s, p, i)) else Taken(None, s)
  }

  // One sweep over the remaining classes; a paid sweep skips classes without credit.
  function Sweep(s: State, c: nat, paid: bool, ok: Filter): Taken
    requires c <= CLASSES
    decreases CLASSES - c
  {
    if c == CLASSES then Taken(None, s)
    else if paid && s.Credit(ClassAt(c)) <= 0 then Sweep(s, c + 1, paid, ok)
    else
      var r := FoundAndRemoved(s, ClassAt(c), ok);
      if r.job.Some? then r else Sweep(s, c + 1, paid, ok)
  }

  ghost function Dequeued(s: State, ok: Filter): Taken {
    var r := Sweep(s, 0, true, ok);
    if r.job.Some? then r
    else if s.AllEmpty() then Taken(None, s)
    else Sweep(Refilled(s), 0, false, ok)
  }

  // Removing an ID from the queue of class p, when it is there.
  function RemovedIn(s: State, p: PriorityClass, id: string): State {
    var i := FirstWithId(s.Queue(p), id);
    if i < |s.Queue(p)| then DropAt(s, p, i) else s
  }

  // ---------------------------------------------------------------- what Dequeue does

  // A sweep can stop at position k of the priority order.
  ghost predicate Servable(s: State, paid: bool, ok: Filter, k: nat)
    requires k < CLASSES
  {
    s.Eligible(ClassAt(k), ok) && (paid ==> s.Credit(ClassAt(k)) > 0)
  }

  // p is the first class, from position c on, that a sweep can serve.
  ghost predicate Serves(s: State, c: nat, paid: bool, ok: Filter, p: PriorityClass) {
    exists k: nat :: c <= k < CLASSES && ClassAt(k) == p && Servable(s, paid, ok, k)
      && forall h: nat :: c <= h < k ==> !Servable(s, paid, ok, h)
  }

  // The job r.job was the first eligible one of class p, at position i, and left from there.
  ghost predicate TookFirst(s: State, ok: Filter, r: Taken, p: PriorityClass, i: nat) {
    && Known(p) && i < |s.Queue(p)| && i == FirstEligible(s.Queue(p), ok)
    && r == Taken(Some(s.Queue(p)[i]), TakeAt(s, p, i))
  }

  lemma {:induction false} SweepMeaning(s: State, c: nat, paid: bool, ok: Filter) returns (p: PriorityClass, i: nat)
    requires c <= CLASSES
    ensures Sweep(s, c, paid, ok).job.None? ==>
      Sweep(s, c, paid, ok).state == s && forall k: nat :: c <= k < CLASSES ==> !Servable(s, paid, ok, k)
    ensures Sweep(s, c, paid, ok).job.Some? ==>
      Serves(s, c, paid, ok, p) && TookFirst(s, ok, Sweep(s, c, paid, ok), p, i)
    decreases CLASSES - c
  {
    p, i := Critical, 0;
    if c < CLASSES {
      var first := FirstEligible(s.Queue(ClassAt(c)), ok);
      if Servable(s, paid, ok, c) {
        p, i := ClassAt(c), first;
      } else {
        assert first < |s.Queue(ClassAt(c))| ==> s.Eligible(ClassAt(c), ok);
        p, i := SweepMeaning(s, c + 1, paid, ok);
      }
    }
  }

  lemma NotServable(s: State, paid: bool, ok: Filter)
    requires forall k: nat :: k < CLASSES ==> !Servable(s, paid, ok, k)
    ensures forall p :: Known(p) ==> !(s.Eligible(p, ok) && (paid ==> s.Credit(p) > 0))
  {
    forall p | Known(p) ensures !(s.Eligible(p, ok) && (paid ==> s.Credit(p) > 0)) {
      OrderCoversKnown(p);
      assert !Servable(s, paid, ok, RankOf(p));
    }
  }

  // Dequeue refines five FIFO sequences: it returns nothing exactly when no job of a known
  // class is eligible. Otherwise it removes the first eligible job of one class p, at
  // position i, and keeps everything else in order; p is the first class of the priority
  // order that still has credit and an eligible job, and when none has both, all credits
  // are refilled first.
  lemma DequeueMeaning(s: State, ok: Filter) returns (p: PriorityClass, i: nat)
    requires s.Valid()
    ensures Dequeued(s, ok).state.Valid()
    ensures Dequeued(s, ok).job.None? <==> forall q :: Known(q) ==> !s.Eligible(q, ok)
    ensures Dequeued(s, ok).job.None? ==>
      Dequeued(s, ok).state == if s.AllEmpty() then s else Refilled(s)
    ensures Dequeued(s, ok).job.Some? ==>
      if exists q :: Known(q) && s.Eligible(q, ok) && s.Credit(q) > 0
      then Serves(s, 0, true, ok, p) && TookFirst(s, ok, Dequeued(s, ok), p, i) && s.Credit(p) > 0
      else Serves(s, 0, false, ok, p) && TookFirst(Refilled(s), ok, Dequeued(s, ok), p, i)
  {
    p, i := SweepMeaning(s, 0, true, ok);
    if Sweep(s, 0, true, ok).job.Some? {
      assert s.Eligible(p, ok) && s.Credit(p) > 0;
      TakeAtValid(s, p, i);
    } else {
      NotServable(s, true, ok);
      var t := Refilled(s);
      RefilledValid(s);
      assert forall q :: t.Queue(q) == s.Queue(q);
      if s.AllEmpty() {
        TotalLenZero(s.queues);
        assert forall q :: s.Queue(q) == [];
      } else {
        p, i := SweepMeaning(t, 0, false, ok);
        if Sweep(t, 0, false, ok).job.Some? {
          ServesRefilled(s, ok, p);
          assert s.Eligible(p, ok);
          TakeAtValid(t, p, i);
        } else {
          NotServable(t, false, ok);
          forall q | Known(q) ensures !s.Eligible(q, ok) { assert !t.Eligible(q, ok); }
        }
      }
    }
  }

  lemma DequeuedValid(s: State, ok: Filter)
    requires s.Valid()
    ensures Dequeued(s, ok).state.Valid()
  {
    var _, _ := DequeueMeaning(s, ok);
  }

  lemma ServesRefilled(s: State, ok: Filter, p: PriorityClass)
    requires Serves(Refilled(s), 0, false, ok, p)
    ensures Serves(s, 0, false, ok, p)
  {
    forall k: nat | k < CLASSES ensures Servable(Refilled(s), false, ok, k) == Servable(s, false, ok, k) {
      assert Refilled(s).Queue(ClassAt(k)) == s.Queue(ClassAt(k));
    }
  }

  lemma RefilledValid(s: State)
    requires s.Valid()
    ensures Refilled(s).Valid() && Refilled(s).CreditSum() == 31
    ensures forall p :: Refilled(s).Credit(p) == Weight(p)
  {
    assert forall p :: Refilled(s).Queue(p) == s.Queue(p);
  }

  lemma TakeAtValid(s: State, p: PriorityClass, i: nat)
    requires s.Valid() && Known(p) && s.Credit(p) > 0 && i < |s.Queue(p)|
    ensures TakeAt(s, p, i).Valid()
    ensures TakeAt(s, p, i).CreditSum() == s.CreditSum() - 1
  {
    hide Weight, ClassOf;
    var t := TakeAt(s, p, i);
    assert forall q :: t.Queue(q) == if q == p then RemoveAt(s.Queue(p), i) else s.Queue(q);
    assert Filed(p, s.Queue(p));
    assert forall q :: t.Credit(q) == s.Credit(q) - if q == p then 1 else 0;
  }

  lemma EnqueuedValid(s: State, j: Job)
    requires s.Valid()
    ensures Enqueued(s, j).Valid()
  {
    var t := Enqueued(s, j);
    assert Filed(ClassOf(j), s.Queue(ClassOf(j)));
    assert forall q :: t.Queue(q) == if q == ClassOf(j) then s.Queue(q) + [j] else s.Queue(q);
    assert forall q :: t.Credit(q) == s.Credit(q);
  }

  lemma RemovedInValid(s: State, p: PriorityClass, id: string)
    requires s.Valid()
    ensures RemovedIn(s, p, id).Valid()
  {
    var i := FirstWithId(s.Queue(p), id);
    if i < |s.Queue(p)| {
      var t := DropAt(s, p, i);
      assert Filed(p, s.Queue(p));
      assert forall q :: t.Queue(q) == if q == p then RemoveAt(s.Queue(p), i) else s.Queue(q);
      assert forall q :: t.Credit(q) == s.Credit(q);
    }
  }

  // ---------------------------------------------------------------- the class

  class PriorityScheduler {
    var queues: map<PriorityClass, seq<Job>>
    var currentCredits: map<PriorityClass, int>
    const weights: map<PriorityClass, int>

    ghost function View(): State
      reads this
    {
      State(queues, currentCredits)
    }

    ghost predicate Valid()
      reads this
    {
      View().Valid() && weights == WEIGHTS
    }

    constructor ()
      ensures Valid() && View() == EMPTY
    {
      weights := WEIGHTS;
      queues := map[];
      currentCredits := WEIGHTS;
    }

    method Enqueue(job: Job)
      requires Valid()
      modifies this
      ensures Valid() && View() == Enqueued(old(View()), job)
      ensures currentCredits == old(currentCredits)
      ensures var class_ := if job.priority == Custom("") then Normal else job.priority;
        forall p :: View().Queue(p) == old(View()).Queue(p) + if p == class_ then [job] else []
    {
      var p := if job.priority == Custom("") then Normal else job.priority;
      var q := if p in queues then queues[p] else [];
      EnqueuedValid(View(), job);
      queues := queues[p := q + [job]];
    }

    method FindAndRemove(p: PriorityClass, canSchedule: Filter) returns (r: Option<Job>)
      modifies this
      ensures Taken(r, View()) == FoundAndRemoved(old(View()), p, canSchedule)
    {
      var q := if p in queues then queues[p] else [];
      var i := 0;
      while i < |q|
        invariant 0 <= i <= |q|
        invariant i + FirstEligible(q[i..], canSchedule) == FirstEligible(q, canSchedule)
        invariant View() == old(View())
      {
        assert q[i..][1..] == q[i + 1..];
        if canSchedule(q[i]) {
          queues := queues[p := q[..i] + q[i + 1..]];
          currentCredits := currentCredits[p := (if p in currentCredits then currentCredits[p] else 0) - 1];
          return Some(q[i]);
        }
        i := i + 1;
      }
      return None;
    }

    // The scan for any job at all, over every class including unknown ones.
    method HasCandidates() returns (found: bool)
      ensures found <==> !View().AllEmpty()
    {
      TotalLenZero(queues);
      var keys := queues.Keys;
      while keys != {}
        invariant keys <= queues.Keys
        invariant forall p :: p in queues && p !in keys ==> queues[p] == []
        decreases keys
      {
        var p :| p in keys;
        keys := keys - {p};
        if |queues[p]| > 0 { return true; }
      }
      return false;
    }

    // Dequeue's loop over the priority order: the paid sweep needs a non-empty class with
    // credit, the sweep after a refill does not.
    method SweepClasses(paid: bool, canSchedule: Filter) returns (r: Option<Job>)
      modifies this
      ensures Taken(r, View()) == Sweep(old(View()), 0, paid, canSchedule)
    {
      ghost var s := View();
      var c := 0;
      while c < CLASSES
        invariant 0 <= c <= CLASSES
        invariant View() == s
        invariant Sweep(s, c, paid, canSchedule) == Sweep(s, 0, paid, canSchedule)
      {
        var p := ClassAt(c);
        var q := if p in queues then queues[p] else [];
        var credit := if p in currentCredits then currentCredits[p] else 0;
        if !paid || (|q| > 0 && credit > 0) {
          r := FindAndRemove(p, canSchedule);
          if r.Some? { return; }
        }
        c := c + 1;
      }
      return None;
    }

    method Dequeue(canSchedule: Filter) returns (r: Option<Job>)
      requires Valid()
      modifies this
      ensures Valid() && Taken(r, View()) == Dequeued(old(View()), canSchedule)
    {
      hide Sweep, State.Valid;
      ghost var s := View();
      DequeuedValid(s, canSchedule);
      var _, _ := SweepMeaning(s, 0, true, canSchedule);
      r := SweepClasses(true, canSchedule);
      if r.None? {
        var hasCandidates := HasCandidates();
        if hasCandidates {
          currentCredits := weights;
          assert View() == Refilled(s);
          r := SweepClasses(false, canSchedule);
        }
      }
      assert Taken(r, View()) == Dequeued(s, canSchedule);
    }

    // Go visits the classes in an unspecified order, so the class that loses the ID is any
    // class holding it; IDs are unique in use, which makes the class unique.
    method Remove(execID: string) returns (ok: bool)
      requires Valid()
      modifies this
      ensures Valid()
      ensures ok <==> exists p, i :: 0 <= i < |old(View()).Queue(p)| && old(View()).Queue(p)[i].id == execID
      ensures !ok ==> View() == old(View())
      ensures ok ==> exists p :: FirstWithId(old(View()).Queue(p), execID) < |old(View()).Queue(p)|
                              && View() == RemovedIn(old(View()), p, execID)
    {
      ghost var s := View();
      var keys := queues.Keys;
      while keys != {}
        invariant View() == s && keys <= queues.Keys
        invariant forall p, i :: p in queues && p !in keys && 0 <= i < |queues[p]| ==> queues[p][i].id != execID
        decreases keys
      {
        var p :| p in keys;
        keys := keys - {p};
        var q := queues[p];
        var i := 0;
        while i < |q|
          invariant 0 <= i <= |q|
          invariant i + FirstWithId(q[i..], execID) == FirstWithId(q, execID)
        {
          assert q[i..][1..] == q[i + 1..];
          if q[i].id == execID {
            RemovedInValid(s, p, execID);
            queues := queues[p := q[..i] + q[i + 1..]];
            assert View() == RemovedIn(s, p, execID);
            assert s.Queue(p)[i].id == execID;
            return true;
          }
          i := i + 1;
        }
      }
      return false;
    }

    method Size() returns (size: nat)
      ensures size == View().Depth()
    {
      size := 0;
      var keys := queues.Keys;
      ghost var rest := queues;
      while keys != {}
        invariant keys == rest.Keys
        invariant forall k :: k in rest ==> k in queues && rest[k] == queues[k]
        invariant size + TotalLen(rest) == TotalLen(queues)
        decreases keys
      {
        var p :| p in keys;
        size := size + |queues[p]|;
        TotalLenSplit(rest, p);
        rest := rest - {p};
        keys := keys - {p};
      }
      assert rest == map[];
    }
  }
}
