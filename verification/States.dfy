// Which state an execution can show at which place, and where Cancel and Wait find it.

module States {
  import opened Option
  import opened Executions
  import opened Scheduler
  import opened Engine
  import opened Places
  import opened Slots

  // The states an execution can be in at a place.
  function StatesAt(p: Place): set<ExecState> {
    match p
    case Submitting(marked) => if marked then {Queued, Cancelled} else {Pending, Cancelled}
    case InQueue => {Queued, Cancelled}
    case Held => {Queued, Cancelled}
    case InRun(Starting) => {Queued, Cancelled}
    case InRun(Working) => {Running}
    case InRun(Backoff) => {Retrying, Cancelled}
    case Removed => {Cancelled}
    case _ => {Pending, Queued, Running, Retrying, Succeeded, Failed, Cancelled, TimedOut}
  }

  predicate StateFits(s: System, id: string) {
    id in s.entries ==> s.entries[id].state in StatesAt(s.entries[id].place)
  }

  lemma FitsCaller(c: Config, s: System, a: Action, id: string)
    requires StateFits(s, id) && Enabled(c, s, a) && (ByCaller(a) || ByWaiter(a))
    ensures StateFits(Next(c, s, a), id)
  {
  }

  lemma FitsRun(c: Config, s: System, a: Action, id: string)
    requires StateFits(s, id) && Enabled(c, s, a) && ByRunner(a)
    ensures StateFits(NextRun(c, s, a), id)
  {
  }

  lemma FitsDispatch(c: Config, s: System, a: Action, id: string)
    requires PlaceInv(s) && StateFits(s, id) && Enabled(c, s, a) && ByDispatcher(a)
    ensures StateFits(NextDispatch(c, s, a), id)
  {
    assert EntryOk(s, id);
    if a.ScanStep? { ScanStands(s); }
  }

  lemma {:induction false} FitsAlways(c: Config, s: System, acts: seq<Action>, id: string)
    requires CoreInv(c, s) && StateFits(s, id)
    ensures StateFits(Run(c, s, acts), id)
    decreases |acts|
  {
    hide StateFits, SlotInv;
    if |acts| > 0 {
      var a := acts[0];
      if Enabled(c, s, a) {
        PlaceNext(c, s, a);
        SlotNext(c, s, a);
        if ByCaller(a) || ByWaiter(a) { FitsCaller(c, s, a, id); }
        else if ByDispatcher(a) { FitsDispatch(c, s, a, id); }
        else { FitsRun(c, s, a, id); }
      }
      FitsAlways(c, Step(c, s, a), acts[1..], id);
    }
  }

  // In every reachable state: PENDING, QUEUED and RETRYING (or CANCELLED) are shown exactly
  // before the enqueue, up to the start of the run, and in a backoff; RUNNING while an attempt
  // is made; and a removed execution is CANCELLED.
  lemma StatesOfPlaces(c: Config, s: System, id: string)
    requires Reachable(c, s) && id in s.entries
    ensures s.entries[id].state in StatesAt(s.entries[id].place)
  {
    PlaceInit();
    SlotInit(c);
    var acts :| Run(c, INIT, acts) == s;
    FitsAlways(c, INIT, acts, id);
  }

  // Cancel can commit exactly as long as it is not too late and has not happened yet: before
  // the run has started and in a backoff, but never while an attempt is made.
  lemma CancelCommitsIff(c: Config, s: System, id: string, n: nat)
    requires Reachable(c, s) && id in s.entries && n !in s.waits.notifiers && !s.pc.Scanning?
    ensures var p := s.entries[id].place;
      p in {Submitting(false), Submitting(true), InQueue, Held, InRun(Starting), InRun(Backoff)} ==>
      (Enabled(c, s, Cancel(id, n)) <==> s.entries[id].state != Cancelled)
    ensures s.entries[id].place in {InRun(Working), Removed} ==> !Enabled(c, s, Cancel(id, n))
  {
    StatesOfPlaces(c, s, id);
  }

  // Wait returns at once exactly for the four terminal states.
  lemma WaitBlocksIff(c: Config, s: System, id: string, ch: nat)
    requires id in s.entries && ch !in s.waits.channels
    ensures Enabled(c, s, CheckState(ch, id)) <==> s.entries[id].state !in {Succeeded, Failed, Cancelled, TimedOut}
  {
  }
}
