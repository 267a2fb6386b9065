// Where an execution can be: every execution is at exactly one place of the protocol, and it
// sits in the scheduler exactly when its place says so.

module Places {
  import opened Option
  import opened Collections
  import opened Executions
  import opened Scheduler
  import opened Engine

  type Entries = map<string, Entry>

  predicate Holds(pc: Dispatcher, id: string) { (pc.Holding? || pc.Acquired?) && pc.job.id == id }

  // What an entry says about the dispatcher and about its submitter.
  predicate EntryOk(s: System, id: string) {
    && (id in s.entries ==>
          && s.entries[id].job.id == id
          && (s.entries[id].place == Held <==> Holds(s.pc, id))
          && (Holds(s.pc, id) ==> s.entries[id].job == s.pc.job))
    && (Holds(s.pc, id) ==> id in s.entries)
    && (id in s.entered ==> id in s.entries && !s.entries[id].place.Submitting?)
  }

  predicate IsQueued(entries: Entries, id: string) { id in entries && entries[id].place == InQueue }

  // Every job of a queue is a known execution standing in the queue, once.
  ghost predicate QueueOk(entries: Entries, q: seq<Job>) {
    && (forall i :: 0 <= i < |q| ==> IsQueued(entries, q[i].id) && entries[q[i].id].job == q[i])
    && (forall i, k :: 0 <= i < k < |q| ==> q[i].id != q[k].id)
  }

  ghost predicate Queued(sched: State, j: Job) {
    exists i :: 0 <= i < |sched.Queue(ClassOf(j))| && sched.Queue(ClassOf(j))[i] == j
  }

  ghost predicate QueueInv(sched: State, entries: Entries) {
    && sched.Valid()
    && (forall p :: QueueOk(entries, sched.Queue(p)))
    && (forall id :: IsQueued(entries, id) ==> entries[id].job.id == id && Queued(sched, entries[id].job))
  }

  ghost predicate ScanInv(s: System) {
    s.pc.Scanning? ==> s.pc.cls <= CLASSES && (!s.pc.paid ==> s.sched.credits == WEIGHTS)
  }

  // Every execution is at exactly one of: with its submitter, queued once, held by the
  // dispatcher, in its own goroutine, removed by Cancel, or done.
  ghost predicate PlaceInv(s: System) {
    && (forall id :: EntryOk(s, id))
    && QueueInv(s.sched, s.entries)
    && ScanInv(s)
  }

  lemma PlaceInit()
    ensures PlaceInv(INIT)
  {
    assert forall p :: EMPTY.Queue(p) == [];
  }

  // ---------------------------------------------------------------- the queues

  // Changing an entry that is not queued before or after does not concern the queues.
  lemma QueueKeep(sched: State, entries: Entries, id: string, e: Entry)
    requires QueueInv(sched, entries) && !IsQueued(entries, id) && e.place != InQueue
    ensures QueueInv(sched, entries[id := e])
  {
    forall p ensures QueueOk(entries[id := e], sched.Queue(p)) {
      assert QueueOk(entries, sched.Queue(p));
    }
  }

  // Nor does changing anything but the job and the place of an entry.
  lemma QueueTouch(sched: State, entries: Entries, id: string, e: Entry)
    requires QueueInv(sched, entries) && id in entries && e.job == entries[id].job && e.place == entries[id].place
    ensures QueueInv(sched, entries[id := e])
  {
    forall p ensures QueueOk(entries[id := e], sched.Queue(p)) {
      assert QueueOk(entries, sched.Queue(p));
    }
    assert IsQueued(entries, id) ==> Queued(sched, e.job);
  }

  lemma QueueOkAppend(entries: Entries, q: seq<Job>, id: string)
    requires QueueOk(entries, q) && id in entries && entries[id].job.id == id && !IsQueued(entries, id)
    ensures QueueOk(Moved(entries, id, InQueue), q + [entries[id].job])
    ensures QueueOk(Moved(entries, id, InQueue), q)
  {
  }

  lemma QueueEnter(sched: State, entries: Entries, id: string)
    requires QueueInv(sched, entries)
    requires id in entries && entries[id].job.id == id && !IsQueued(entries, id)
    ensures QueueInv(Enqueued(sched, entries[id].job), Moved(entries, id, InQueue))
  {
    var j := entries[id].job;
    var t := Enqueued(sched, j);
    EnqueuedValid(sched, j);
    forall p ensures QueueOk(Moved(entries, id, InQueue), t.Queue(p)) {
      assert QueueOk(entries, sched.Queue(p));
      assert t.Queue(p) == if p == ClassOf(j) then sched.Queue(p) + [j] else sched.Queue(p);
      QueueOkAppend(entries, sched.Queue(p), id);
    }
    forall e | IsQueued(Moved(entries, id, InQueue), e) ensures entries[e].job.id == e && Queued(t, entries[e].job) {
      var p := ClassOf(entries[e].job);
      if e != id {
        assert IsQueued(entries, e);
        var i :| 0 <= i < |sched.Queue(p)| && sched.Queue(p)[i] == entries[e].job;
        assert t.Queue(p)[i] == entries[e].job;
      } else {
        assert t.Queue(p)[|t.Queue(p)| - 1] == j;
      }
    }
  }

  lemma ForeignIds(sched: State, entries: Entries, p: PriorityClass, i: nat, c: PriorityClass)
    requires QueueInv(sched, entries) && i < |sched.Queue(p)| && c != p
    ensures forall k :: 0 <= k < |sched.Queue(c)| ==> sched.Queue(c)[k].id != sched.Queue(p)[i].id
  {
    assert Filed(p, sched.Queue(p)) && Filed(c, sched.Queue(c));
    assert QueueOk(entries, sched.Queue(p)) && QueueOk(entries, sched.Queue(c));
  }

  lemma QueueOkRemove(entries: Entries, q: seq<Job>, i: nat, e: Entry)
    requires QueueOk(entries, q) && i < |q|
    ensures QueueOk(entries[q[i].id := e], RemoveAt(q, i))
  {
    var r := RemoveAt(q, i);
    forall k | 0 <= k < |r| ensures r[k].id != q[i].id && r[k] == q[if k < i then k else k + 1] { }
  }

  lemma QueueOkOther(entries: Entries, q: seq<Job>, id: string, e: Entry)
    requires QueueOk(entries, q) && forall k :: 0 <= k < |q| ==> q[k].id != id
    ensures QueueOk(entries[id := e], q)
  {
  }

  lemma QueuedAfterDrop(sched: State, p: PriorityClass, i: nat, t: State, j: Job)
    requires i < |sched.Queue(p)| && t.queues == DropAt(sched, p, i).queues
    requires Queued(sched, j) && j != sched.Queue(p)[i]
    ensures Queued(t, j)
  {
    var c := ClassOf(j);
    var h :| 0 <= h < |sched.Queue(c)| && sched.Queue(c)[h] == j;
    assert t.Queue(c)[if c == p && h > i then h - 1 else h] == j;
  }

  // A job leaving its queue position leaves the rest as it was.
  lemma QueueDrop(sched: State, entries: Entries, p: PriorityClass, i: nat, e: Entry, t: State)
    requires QueueInv(sched, entries) && i < |sched.Queue(p)| && e.place != InQueue
    requires t.Valid() && t.queues == DropAt(sched, p, i).queues
    ensures QueueInv(t, entries[sched.Queue(p)[i].id := e])
  {
    var id := sched.Queue(p)[i].id;
    assert QueueOk(entries, sched.Queue(p));
    forall c ensures QueueOk(entries[id := e], t.Queue(c)) {
      assert QueueOk(entries, sched.Queue(c));
      if c == p {
        QueueOkRemove(entries, sched.Queue(p), i, e);
      } else {
        ForeignIds(sched, entries, p, i, c);
        QueueOkOther(entries, sched.Queue(c), id, e);
      }
    }
    forall x | IsQueued(entries[id := e], x) ensures entries[x].job.id == x && Queued(t, entries[x].job) {
      assert x != id && IsQueued(entries, x);
      QueuedAfterDrop(sched, p, i, t, entries[x].job);
    }
  }

  // Remove can find an ID in no queue but that of the execution's own class.
  lemma OnlyOwnClass(s: System, id: string, p: PriorityClass, i: nat)
    requires QueueInv(s.sched, s.entries) && i < |s.sched.Queue(p)| && s.sched.Queue(p)[i].id == id
    ensures IsQueued(s.entries, id) && p == ClassOf(s.entries[id].job)
    ensures i == FirstWithId(s.sched.Queue(p), id)
  {
    assert Filed(p, s.sched.Queue(p)) && QueueOk(s.entries, s.sched.Queue(p));
    var k := FirstWithId(s.sched.Queue(p), id);
  }

  // Cancel's Remove succeeds exactly when the execution is queued.
  lemma RemoveSucceedsIff(s: System, id: string)
    requires QueueInv(s.sched, s.entries) && id in s.entries
    ensures var p := ClassOf(s.entries[id].job);
      FirstWithId(s.sched.Queue(p), id) < |s.sched.Queue(p)| <==> s.entries[id].place == InQueue
  {
    var p := ClassOf(s.entries[id].job);
    var i := FirstWithId(s.sched.Queue(p), id);
    if i < |s.sched.Queue(p)| { OnlyOwnClass(s, id, p, i); }
    assert IsQueued(s.entries, id) ==> Queued(s.sched, s.entries[id].job);
  }

  lemma QueueCancel(s: System, id: string, e: Entry)
    requires QueueInv(s.sched, s.entries) && id in s.entries
    requires e.job == s.entries[id].job
    requires e.place == if s.entries[id].place == InQueue then Removed else s.entries[id].place
    ensures QueueInv(RemovedIn(s.sched, ClassOf(e.job), id), s.entries[id := e])
  {
    var p := ClassOf(e.job);
    var i := FirstWithId(s.sched.Queue(p), id);
    RemoveSucceedsIff(s, id);
    RemovedInValid(s.sched, p, id);
    if i < |s.sched.Queue(p)| {
      QueueDrop(s.sched, s.entries, p, i, e, RemovedIn(s.sched, p, id));
    } else {
      QueueTouch(s.sched, s.entries, id, e);
    }
  }

  lemma QueueRefill(sched: State, entries: Entries)
    requires QueueInv(sched, entries)
    ensures QueueInv(Refilled(sched), entries)
  {
    RefilledValid(sched);
    assert forall p :: Refilled(sched).Queue(p) == sched.Queue(p);
    forall id | IsQueued(entries, id) ensures Queued(Refilled(sched), entries[id].job) {
      assert Queued(sched, entries[id].job);
    }
  }

  // ---------------------------------------------------------------- one step

  // The scan only ever stands at known, queued executions of a class that can still pay.
  lemma ScanStands(s: System)
    requires PlaceInv(s) && s.pc.Scanning?
    ensures ScanReady(s)
    ensures s.pc.cls < CLASSES && !ClassEnded(s) ==>
      var j := s.sched.Queue(ClassAt(s.pc.cls))[s.pc.pos];
      IsQueued(s.entries, j.id) && s.entries[j.id].job == j && s.sched.Credit(ClassAt(s.pc.cls)) > 0
  {
    if s.pc.cls < CLASSES {
      assert QueueOk(s.entries, s.sched.Queue(ClassAt(s.pc.cls)));
    }
  }

  lemma QueueScan(c: Config, s: System)
    requires PlaceInv(s) && ScanReady(s)
    ensures QueueInv(NextScan(c, s).sched, NextScan(c, s).entries)
    ensures ScanInv(NextScan(c, s))
  {
    ScanStands(s);
    var k, i := s.pc.cls, s.pc.pos;
    if k == CLASSES {
      QueueRefill(s.sched, s.entries);
    } else if !ClassEnded(s) && !Refuses(c, s) {
      var j := s.sched.Queue(ClassAt(k))[i];
      TakeAtValid(s.sched, ClassAt(k), i);
      QueueDrop(s.sched, s.entries, ClassAt(k), i, s.entries[j.id].(place := Held), TakeAt(s.sched, ClassAt(k), i));
    }
  }

  lemma QueueCaller(c: Config, s: System, a: Action)
    requires PlaceInv(s) && Enabled(c, s, a)
    requires ByCaller(a)
    ensures QueueInv(NextCaller(c, s, a).sched, NextCaller(c, s, a).entries)
  {
    var t := NextCaller(c, s, a);
    match a
    case Admit(j) => QueueKeep(s.sched, s.entries, j.id, t.entries[j.id]);
    case Mark(id) => QueueKeep(s.sched, s.entries, id, t.entries[id]);
    case Enter(id) =>
      assert EntryOk(s, id);
      QueueEnter(s.sched, s.entries, id);
    case SignalSubmit(id) =>
    case Cancel(id, n) => QueueCancel(s, id, t.entries[id]);
  }

  lemma QueueDispatch(c: Config, s: System, a: Action)
    requires PlaceInv(s) && Enabled(c, s, a)
    requires ByDispatcher(a)
    ensures QueueInv(NextDispatch(c, s, a).sched, NextDispatch(c, s, a).entries)
    ensures ScanInv(NextDispatch(c, s, a))
  {
    var t := NextDispatch(c, s, a);
    match a
    case ScanStep => QueueScan(c, s);
    case Launch =>
      assert EntryOk(s, s.pc.job.id);
      QueueKeep(s.sched, s.entries, s.pc.job.id, t.entries[s.pc.job.id]);
    case _ =>
  }

  lemma QueueRun(c: Config, s: System, a: Action)
    requires PlaceInv(s) && Enabled(c, s, a)
    requires ByRunner(a)
    ensures QueueInv(NextRun(c, s, a).sched, NextRun(c, s, a).entries)
  {
    QueueKeep(s.sched, s.entries, a.id, NextRun(c, s, a).entries[a.id]);
  }

  lemma QueueWait(c: Config, s: System, a: Action)
    requires PlaceInv(s) && Enabled(c, s, a)
    requires ByWaiter(a)
    ensures QueueInv(NextWait(c, s, a).sched, NextWait(c, s, a).entries)
  {
    var t := NextWait(c, s, a);
    match a
    case Claim(n) =>
      var id := s.waits.notifiers[n].id;
      QueueTouch(s.sched, s.entries, id, t.entries[id]);
    case Register(ch) =>
      var id := s.waits.channels[ch].id;
      QueueTouch(s.sched, s.entries, id, t.entries[id]);
    case _ =>
  }

  lemma EntryCaller(c: Config, s: System, a: Action, id: string)
    requires EntryOk(s, id) && Enabled(c, s, a)
    requires ByCaller(a)
    ensures EntryOk(NextCaller(c, s, a), id)
  {
  }

  lemma EntryDispatch(c: Config, s: System, a: Action, id: string)
    requires EntryOk(s, id) && Enabled(c, s, a)
    requires ByDispatcher(a)
    requires a.ScanStep? && s.pc.cls < CLASSES && !ClassEnded(s) ==>
      var j := s.sched.Queue(ClassAt(s.pc.cls))[s.pc.pos];
      IsQueued(s.entries, j.id) && s.entries[j.id].job == j
    ensures EntryOk(NextDispatch(c, s, a), id)
  {
  }

  lemma EntryRun(c: Config, s: System, a: Action, id: string)
    requires EntryOk(s, id) && Enabled(c, s, a)
    requires ByRunner(a)
    ensures EntryOk(NextRun(c, s, a), id)
  {
  }

  lemma EntryWait(c: Config, s: System, a: Action, id: string)
    requires EntryOk(s, id) && Enabled(c, s, a)
    requires ByWaiter(a)
    ensures EntryOk(NextWait(c, s, a), id)
  {
  }

  lemma PlaceNext(c: Config, s: System, a: Action)
    requires PlaceInv(s) && Enabled(c, s, a)
    ensures PlaceInv(Next(c, s, a))
  {
    var t := Next(c, s, a);
    if ByCaller(a) {
      QueueCaller(c, s, a);
      forall id ensures EntryOk(t, id) { assert EntryOk(s, id); EntryCaller(c, s, a, id); }
    } else if ByDispatcher(a) {
      QueueDispatch(c, s, a);
      if a.ScanStep? { ScanStands(s); }
      forall id ensures EntryOk(t, id) { assert EntryOk(s, id); EntryDispatch(c, s, a, id); }
    } else if ByWaiter(a) {
      QueueWait(c, s, a);
      forall id ensures EntryOk(t, id) { assert EntryOk(s, id); EntryWait(c, s, a, id); }
    } else {
      QueueRun(c, s, a);
      forall id ensures EntryOk(t, id) { assert EntryOk(s, id); EntryRun(c, s, a, id); }
    }
  }
}
