// The runs of Attempts are what the protocol of Engine lets the goroutine of an execution do.

module Runs {
  import opened Option
  import opened Executions
  import opened Attempts
  import Retry
  import opened Engine
  import opened Places
  import opened Slots
  import opened Waiting

  // The protocol's actions for one move of execution id; its notifier is number n.
  function ActsOf(id: string, n: nat, m: Move): seq<Action> {
    match m
    case Begin => [Start(id)]
    case Wait => [Retry(id)]
    case Resume => [Action.Resume(id)]
    case Write(st) => [Finish(id, st)]
    case Release => [FreeSlot(id), FreeProvider(id)]
    case Notify => [SignalDone(id, n)]
  }

  function Acts(id: string, n: nat, moves: seq<Move>): seq<Action> {
    if moves == [] then [] else ActsOf(id, n, moves[0]) + Acts(id, n, moves[1..])
  }

  lemma {:induction false} ActsAppend(id: string, n: nat, a: seq<Move>, b: seq<Move>)
    ensures Acts(id, n, a + b) == Acts(id, n, a) + Acts(id, n, b)
  {
    if a == [] {
      assert a + b == b;
    } else {
      assert (a + b)[1..] == a[1..] + b;
      ActsAppend(id, n, a[1..], b);
    }
  }

  lemma ActsSingle(id: string, n: nat, m: Move)
    ensures Acts(id, n, [m]) == ActsOf(id, n, m)
  {
    assert [m][1..] == [];
  }

  // Every action of the sequence is enabled when its turn comes, and the sequence leads from s to t.
  ghost predicate Goes(c: Config, s: System, acts: seq<Action>, t: System)
    decreases |acts|
  {
    if |acts| == 0 then s == t else Enabled(c, s, acts[0]) && Goes(c, Next(c, s, acts[0]), acts[1..], t)
  }

  lemma {:induction false} GoesAppend(c: Config, s: System, a: seq<Action>, t: System, b: seq<Action>, u: System)
    requires Goes(c, s, a, t) && Goes(c, t, b, u)
    ensures Goes(c, s, a + b, u)
    decreases |a|
  {
    if |a| == 0 {
      assert a + b == b;
    } else {
      assert (a + b)[1..] == a[1..] + b;
      GoesAppend(c, Next(c, s, a[0]), a[1..], t, b, u);
    }
  }

  lemma {:induction false} GoesRuns(c: Config, s: System, acts: seq<Action>, t: System)
    requires Goes(c, s, acts, t)
    ensures Run(c, s, acts) == t
    decreases |acts|
  {
    if |acts| > 0 { GoesRuns(c, Next(c, s, acts[0]), acts[1..], t); }
  }

  lemma GoesOne(c: Config, s: System, a: Action)
    requires Enabled(c, s, a)
    ensures Goes(c, s, [a], Next(c, s, a))
  {
    assert [a][1..] == [];
  }

  // The actions of the moves are enabled one after the other and lead from s to t.
  ghost predicate Follows(c: Config, s: System, id: string, n: nat, moves: seq<Move>, t: System) {
    Goes(c, s, Acts(id, n, moves), t)
  }

  lemma FollowsNothing(c: Config, s: System, id: string, n: nat)
    ensures Follows(c, s, id, n, [], s)
  {
  }

  lemma FollowsAppend(c: Config, s: System, id: string, n: nat, a: seq<Move>, t: System, b: seq<Move>, u: System)
    requires Follows(c, s, id, n, a, t) && Follows(c, t, id, n, b, u)
    ensures Follows(c, s, id, n, a + b, u)
  {
    ActsAppend(id, n, a, b);
    GoesAppend(c, s, Acts(id, n, a), t, Acts(id, n, b), u);
  }

  // ---------------------------------------------------------------- single moves

  // s with the place, the state and the result of one execution changed.
  function Wrote(s: System, id: string, p: Place, st: ExecState, hasResult: bool): System
    requires id in s.entries
  {
    s.(entries := s.entries[id := s.entries[id].(place := p, state := st, hasResult := hasResult)])
  }

  lemma WroteTwice(s: System, id: string, p: Place, st: ExecState, r: bool, q: Place, tt: ExecState, h: bool)
    requires id in s.entries
    ensures Wrote(Wrote(s, id, p, st, r), id, q, tt, h) == Wrote(s, id, q, tt, h)
    ensures IsAt(Wrote(s, id, p, st, r), id, p) && Wrote(s, id, p, st, r).entries[id].hasResult == r
  {
  }

  lemma WriteFollows(c: Config, s: System, id: string, n: nat, m: Move) returns (t: System)
    requires m.Begin? || m.Wait? || m.Resume? || m.Write?
    requires Enabled(c, s, ActsOf(id, n, m)[0])
    ensures Follows(c, s, id, n, [m], t)
    ensures t == match m
      case Begin => Wrote(s, id, InRun(Working), Running, s.entries[id].hasResult)
      case Wait => Wrote(s, id, InRun(Backoff), Retrying, s.entries[id].hasResult)
      case Resume => Wrote(s, id, InRun(Working), Running, s.entries[id].hasResult)
      case Write(st) => Wrote(s, id, InRun(Finished), st, true)
      case _ => s
  {
    var a := ActsOf(id, n, m)[0];
    t := Next(c, s, a);
    GoesOne(c, s, a);
    ActsSingle(id, n, m);
  }

  // A run at work can go through k backoffs and be at work again.
  lemma {:induction false} WaitsFollow(c: Config, s: System, id: string, n: nat, k: nat)
    requires IsAt(s, id, InRun(Working)) && s.entries[id].state == Running
    ensures Follows(c, s, id, n, WaitMoves(k), s)
    decreases k
  {
    hide Follows, Wrote;
    FollowsNothing(c, s, id, n);
    if k > 0 {
      WaitsFollow(c, s, id, n, k - 1);
      OneWaitFollows(c, s, id, n);
      FollowsAppend(c, s, id, n, WaitMoves(k - 1), s, [Wait, Move.Resume], s);
    }
  }

  lemma OneWaitFollows(c: Config, s: System, id: string, n: nat)
    requires IsAt(s, id, InRun(Working)) && s.entries[id].state == Running
    ensures Follows(c, s, id, n, [Wait, Move.Resume], s)
  {
    hide Follows;
    var u := WriteFollows(c, s, id, n, Wait);
    var t := WriteFollows(c, u, id, n, Move.Resume);
    assert t.entries == s.entries;
    FollowsAppend(c, s, id, n, [Wait], u, [Move.Resume], t);
    assert [Wait] + [Move.Resume] == [Wait, Move.Resume];
  }

  function Ending(waiting: bool, written: ExecState, over: bool): seq<Move> {
    (if waiting then [Wait] else []) + [Write(written)] + (if over then [Write(Failed)] else [])
  }

  // The write, with the wait before it and the overwriting after it when there are such.
  lemma EndingFollows(c: Config, s: System, id: string, n: nat, waiting: bool, written: ExecState, over: bool)
    returns (t: System)
    requires IsAt(s, id, InRun(Working)) && written != NoState
    ensures Follows(c, s, id, n, Ending(waiting, written, over), t)
    ensures t == Wrote(s, id, InRun(Finished), if over then Failed else written, true)
  {
    hide Follows, Wrote;
    var a, b, d := if waiting then [Wait] else [], [Write(written)], if over then [Write(Failed)] else [];
    FollowsNothing(c, s, id, n);
    t := s;
    if waiting {
      t := WriteFollows(c, s, id, n, Wait);
      WroteTwice(s, id, InRun(Backoff), Retrying, s.entries[id].hasResult, InRun(Finished), written, true);
    }
    var u := WriteFollows(c, t, id, n, Write(written));
    FollowsAppend(c, s, id, n, a, t, b, u);
    WroteTwice(s, id, InRun(Finished), written, true, InRun(Finished), Failed, true);
    FollowsNothing(c, u, id, n);
    t := u;
    if over { t := WriteFollows(c, u, id, n, Write(Failed)); }
    FollowsAppend(c, s, id, n, a + b, u, d, t);
  }

  // t is s after execution id gave back its slot and its provider's.
  predicate GaveBack(s: System, t: System, id: string) {
    && id in s.entries && IsAt(t, id, InRun(ProviderFree)) && t.waits == s.waits
    && t.entries[id] == s.entries[id].(place := InRun(ProviderFree), releases := s.entries[id].releases + 1)
    && t.semUsed == s.semUsed - 1
  }

  lemma ReleaseFollows(c: Config, s: System, id: string, n: nat) returns (t: System)
    requires IsAt(s, id, InRun(Finished)) && s.semUsed > 0
    ensures Follows(c, s, id, n, [Release], t) && GaveBack(s, t, id)
  {
    hide Goes;
    var u := Next(c, s, FreeSlot(id));
    t := Next(c, u, FreeProvider(id));
    GoesOne(c, s, FreeSlot(id));
    GoesOne(c, u, FreeProvider(id));
    GoesAppend(c, s, [FreeSlot(id)], u, [FreeProvider(id)], t);
    ActsSingle(id, n, Release);
    assert [FreeSlot(id)] + [FreeProvider(id)] == [FreeSlot(id), FreeProvider(id)];
  }

  lemma NotifyFollows(c: Config, s: System, id: string, n: nat) returns (t: System)
    requires IsAt(s, id, InRun(ProviderFree)) && n !in s.waits.notifiers
    ensures Follows(c, s, id, n, [Notify], t) && IsAt(t, id, Done) && t.semUsed == s.semUsed
    ensures t.entries[id] == s.entries[id].(place := Done) && t.waits == Summon(s.waits, n, id)
  {
    hide Goes;
    t := Next(c, s, SignalDone(id, n));
    GoesOne(c, s, SignalDone(id, n));
    ActsSingle(id, n, Notify);
  }

  // ---------------------------------------------------------------- the connection

  // Whatever a run of an execution meets (every exit and every panic of RunExecution), its moves
  // are a sequence of enabled actions of the protocol, from the moment its goroutine starts. At
  // the end the execution is done, in the state of RunResult, with a result; it has given back
  // exactly one slot of the semaphore and of its provider, and one notifier is summoned.
  lemma RunFollowsProtocol(cfg: Config, s: System, id: string, n: nat, c: Case) returns (t: System)
    requires Reachable(cfg, s) && IsAt(s, id, InRun(Starting)) && n !in s.waits.notifiers
    ensures Goes(cfg, s, Acts(id, n, RunMoves(c)), t) && Reachable(cfg, t)
    ensures IsAt(t, id, Done) && t.entries[id].state == RunResult(c).state && t.entries[id].hasResult
    ensures t.entries[id].releases == 1 && t.semUsed == s.semUsed - 1
    ensures n in t.waits.notifiers && t.waits.notifiers[n] == Summoned(id)
  {
    hide RunResult, Written, LoopOf, Overwritten, CoreInv, Follows, Next, Reachable, GaveBack, WaitMoves, Goes;
    var e := LoopOf(c);
    var over := Overwritten(c);
    var written := if Written(c).Some? then Written(c).value.state else Failed;
    WrittenState(c);
    ReachableCore(cfg, s);
    SlotTaken(cfg, s, id);
    var b := WriteFollows(cfg, s, id, n, Begin);
    var f, g := AtWork(cfg, s, b, id, n, e, written, over);
    t := NotifyFollows(cfg, g, id, n);
    var x := WaitMoves(Resumed(e)) + Ending(EndsWaiting(e), written, over);
    FollowsAppend(cfg, s, id, n, [Begin], b, x + [Release], g);
    FollowsAppend(cfg, s, id, n, [Begin] + (x + [Release]), g, [Notify], t);
    assert RunMoves(c) == [Begin] + (x + [Release]) + [Notify];
    FollowsRuns(cfg, s, id, n, RunMoves(c), t);
  }

  // The part of a run between its first write and its notification.
  lemma AtWork(cfg: Config, s: System, b: System, id: string, n: nat, e: End, written: ExecState, over: bool)
    returns (f: System, g: System)
    requires IsAt(s, id, InRun(Starting)) && s.semUsed > 0 && written != NoState
    requires b == Wrote(s, id, InRun(Working), Running, s.entries[id].hasResult)
    ensures Follows(cfg, b, id, n, WaitMoves(Resumed(e)) + Ending(EndsWaiting(e), written, over) + [Release], g)
    ensures GaveBack(f, g, id) && f == Wrote(b, id, InRun(Finished), if over then Failed else written, true)
    ensures IsAt(g, id, InRun(ProviderFree)) && g.waits == s.waits && g.semUsed == s.semUsed - 1
    ensures g.entries[id].releases == s.entries[id].releases + 1
    ensures g.entries[id].state == (if over then Failed else written) && g.entries[id].hasResult
  {
    hide Follows, Ending;
    WaitsFollow(cfg, b, id, n, Resumed(e));
    f := EndingFollows(cfg, b, id, n, EndsWaiting(e), written, over);
    g := ReleaseFollows(cfg, f, id, n);
    var x, y := WaitMoves(Resumed(e)), Ending(EndsWaiting(e), written, over);
    FollowsAppend(cfg, b, id, n, x, b, y, f);
    FollowsAppend(cfg, b, id, n, x + y, f, [Release], g);
  }

  lemma FollowsRuns(c: Config, s: System, id: string, n: nat, moves: seq<Move>, t: System)
    requires Reachable(c, s) && Follows(c, s, id, n, moves, t)
    ensures Goes(c, s, Acts(id, n, moves), t) && Reachable(c, t)
  {
    GoesRuns(c, s, Acts(id, n, moves), t);
    LeadsOn(c, s, Acts(id, n, moves));
  }

  lemma WrittenState(c: Case)
    ensures Written(c).Some? ==> Written(c).value.state != NoState
    ensures RunResult(c).state == if Overwritten(c) || Written(c).None? then Failed else Written(c).value.state
  {
  }

  lemma SlotTaken(c: Config, s: System, id: string)
    requires CoreInv(c, s) && IsAt(s, id, InRun(Starting))
    ensures s.semUsed > 0 && s.entries[id].releases == 0
  {
    assert id in SlotHolders(s.entries);
    assert ReleasesOk(s.entries[id]);
  }

  lemma LeadsOn(c: Config, s: System, acts: seq<Action>)
    requires Reachable(c, s)
    ensures Reachable(c, Run(c, s, acts))
  {
    var first :| Run(c, INIT, first) == s;
    RunAppend(c, INIT, first, acts);
  }

  // And every such sequence of moves does occur: the provider, the middleware and a panicking
  // subscriber can bring about any number of backoffs, an end inside a further one, any final
  // state, and its overwriting by the recovery block.
  lemma EveryRunOccurs(k: nat, waiting: bool, written: ExecState, over: bool) returns (c: Case)
    requires written != NoState
    ensures RunMoves(c) == Moves(k, waiting, written, over) && RunResult(c).state == (if over then Failed else written)
    ensures FairDraws(c.w) && c.policy.maxAttempts <= k + 2
  {
    hide Records;
    var r := Result(StatusFailed, written, Some(ExecutionError(InternalCategory, "", false)), 0, 0, []);
    var w := World(_ => Answered(None, Some(Plain("busy"))),
                   i => if waiting && i == k + 2 then Some("canceled") else None,
                   None, _ => _ => 0, site => over && site == OutcomeEvent);
    c := Case(w, Retry.Policy(if waiting then k + 2 else k + 1, Retry.Constant, 0, 0, false), None, None,
              Chain(Passes, _ => Some(Answer(Some(r), None))));
    LoopReaches(w, c.policy.maxAttempts, 1, k + 1);
  }

  // What a run has written can be lost in the same circumstances but for a panic while the
  // outcome is published: then the recovery block's FAILED replaces it.
  lemma RecoveryCanOverwrite(c: Case) returns (d: Case)
    requires Written(c).Some?
    ensures d == c.(w := d.w) && d.w == c.w.(panics := d.w.panics)
    ensures Written(d) == Written(c) && Overwritten(d) && RunResult(d) == PANICKED
  {
    var more: Site -> bool := site => c.w.panics(site) || site in {OutcomeEvent, StreamEvent, ResolveFailedEvent};
    d := c.(w := c.w.(panics := more));
    if EntersLoop(c) && c.policy.maxAttempts >= 1 { SameLoop(c.w, d.w, c.policy.maxAttempts, 1); }
    SameRecords(c.w, d.w, LoopOf(c).k);
  }

  lemma {:induction false} SameLoop(v: World, w: World, max: int, n: nat)
    requires 1 <= n <= max && w == v.(panics := w.panics)
    requires forall i: nat ::
      w.panics(InAttempt(i)) == v.panics(InAttempt(i)) && w.panics(AfterAttempt(i)) == v.panics(AfterAttempt(i))
    requires forall i: nat :: w.panics(RetryEvent(i)) == v.panics(RetryEvent(i))
    ensures Loop(w, max, n) == Loop(v, max, n)
    decreases max - n
  {
    if n < max { SameLoop(v, w, max, n + 1); }
  }

  lemma {:induction false} SameRecords(v: World, w: World, k: nat)
    requires w == v.(panics := w.panics)
    ensures Records(w, k) == Records(v, k)
  {
    if k > 0 { SameRecords(v, w, k - 1); }
  }
}
