// The in-process event bus of core/events/bus.go: bounded queues whose overflow publishes dead
// letters through the same bus.

module EventBus {
  import opened Option
  import opened Collections
  import opened Topics
  import opened BusLog

  datatype Policy = DropOldest | DropNewest

  // predicate nil is the predicate that accepts everything.
  datatype Sub = Sub(pattern: string, accepts: Event -> bool, capacity: nat, policy: Policy)

  predicate Wants(s: Sub, e: Event) { Matches(s.pattern, e.topic) && s.accepts(e) }

  // A subscription whose pattern does not match the dead-letter topic.
  predicate Quiet(s: Sub) { !Matches(s.pattern, DEAD_LETTER) }

  const CANONICAL: set<string> := {
    "runtime.starting", "runtime.ready", "runtime.state_changed", "runtime.degraded", "runtime.recovered",
    "runtime.failed", "runtime.restart_requested", "runtime.restart_rejected", "runtime.shutdown_started",
    "runtime.shutdown_completed", "execution.queued", "execution.started", "execution.retrying",
    "execution.succeeded", "execution.failed", "execution.cancelled", "execution.timed_out",
    "health.degraded", "health.recovered", DEAD_LETTER }

  const RESERVED: set<string> := {"runtime", "execution", "health", "eventbus"}

  // ---------------------------------------------------------------- the termination measure

  function Ordinary(q: seq<Event>): nat {
    if q == [] then 0 else (if IsLetter(q[0]) then 0 else 1) + Ordinary(q[1..])
  }

  lemma {:induction false} OrdinaryAppend(q: seq<Event>, e: Event)
    ensures Ordinary(q + [e]) == Ordinary(q) + if IsLetter(e) then 0 else 1
  {
    if q == [] {
      assert q + [e] == [e] && [e][1..] == [];
    } else {
      assert (q + [e])[1..] == q[1..] + [e];
      OrdinaryAppend(q[1..], e);
    }
  }

  // The number of events other than dead letters held in all queues.
  function Held(queues: seq<seq<Event>>): nat {
    if queues == [] then 0 else Ordinary(queues[0]) + Held(queues[1..])
  }

  lemma {:induction false} HeldUpdate(queues: seq<seq<Event>>, i: nat, q: seq<Event>)
    requires i < |queues|
    ensures Held(queues[i := q]) == Held(queues) - Ordinary(queues[i]) + Ordinary(q)
  {
    if i == 0 {
      assert queues[i := q][1..] == queues[1..];
    } else {
      assert queues[i := q][1..] == queues[1..][i - 1 := q];
      HeldUpdate(queues[1..], i - 1, q);
    }
  }

  // The last c elements of s, and the first.
  function LastOf(s: seq<Event>, c: nat): seq<Event> { if |s| <= c then s else s[|s| - c..] }
  function FirstOf(s: seq<Event>, c: nat): seq<Event> { if |s| <= c then s else s[..c] }

  // The queue of a quiet subscription after an event it wants is published.
  function QueueNext(s: Sub, q: seq<Event>, e: Event): seq<Event> {
    if s.policy == DropOldest then LastOf(q + [e], s.capacity) else FirstOf(q + [e], s.capacity)
  }

  function CapsOf(subs: seq<Sub>): (c: seq<nat>)
    ensures |c| == |subs|
    ensures forall i :: 0 <= i < |subs| ==> c[i] == subs[i].capacity
  {
    seq(|subs|, i requires 0 <= i < |subs| => subs[i].capacity)
  }

  // A history stays legal when a subscription is added, which it does not concern.
  lemma {:induction false} MoreSubs(caps: seq<nat>, c: nat, log: seq<Op>)
    requires LegalLog(caps, log)
    ensures LegalLog(caps + [c], log) && QueueOf(log, |caps|) == [] && BusyOf(log, |caps|) == None
  {
    if log != [] { MoreSubs(caps, c, Front(log)); }
  }

  // ---------------------------------------------------------------- states of the bus

  // Each subscription is filed once, under its own pattern.
  ghost predicate Filed(subs: seq<Sub>, subscribers: map<string, seq<nat>>) {
    && (forall p, k :: p in subscribers && 0 <= k < |subscribers[p]| ==>
          subscribers[p][k] < |subs| && subs[subscribers[p][k]].pattern == p)
    && (forall p, k, m :: p in subscribers && 0 <= k < m < |subscribers[p]| ==> subscribers[p][k] != subscribers[p][m])
    && (forall i :: 0 <= i < |subs| ==> subs[i].pattern in subscribers && i in subscribers[subs[i].pattern])
  }

  // The queues and the running handlers are what the history says, and the history is legal.
  ghost predicate Replays(subs: seq<Sub>, queues: seq<seq<Event>>, busy: seq<Option<Event>>, log: seq<Op>) {
    && |queues| == |subs| == |busy|
    && LegalLog(CapsOf(subs), log)
    && (forall i :: 0 <= i < |subs| ==> queues[i] == QueueOf(log, i))
    && (forall i :: 0 <= i < |subs| ==> busy[i] == BusyOf(log, i))
  }

  // The pattern map with one more subscription, number id.
  function WithSub(subscribers: map<string, seq<nat>>, pattern: string, id: nat): map<string, seq<nat>> {
    subscribers[pattern := (if pattern in subscribers then subscribers[pattern] else []) + [id]]
  }

  lemma FiledMore(subs: seq<Sub>, subscribers: map<string, seq<nat>>, s: Sub)
    requires Filed(subs, subscribers)
    ensures Filed(subs + [s], WithSub(subscribers, s.pattern, |subs|))
  {
    var all := WithSub(subscribers, s.pattern, |subs|);
    forall p, k | p in all && 0 <= k < |all[p]|
      ensures all[p][k] < |subs| + 1 && (subs + [s])[all[p][k]].pattern == p
      ensures all[p][k] == |subs| ==> k == |all[p]| - 1
    {
      if p == s.pattern && k == |all[p]| - 1 { assert all[p][k] == |subs|; }
    }
    forall i | 0 <= i < |subs| + 1 ensures (subs + [s])[i].pattern in all && i in all[(subs + [s])[i].pattern] {
      if i < |subs| {
        var p := subs[i].pattern;
        var k :| 0 <= k < |subscribers[p]| && subscribers[p][k] == i;
        assert all[p][k] == i;
      } else {
        assert all[s.pattern][|all[s.pattern]| - 1] == i;
      }
    }
  }

  lemma ReplaysMore(subs: seq<Sub>, queues: seq<seq<Event>>, busy: seq<Option<Event>>, log: seq<Op>, s: Sub)
    requires Replays(subs, queues, busy, log)
    ensures Replays(subs + [s], queues + [[]], busy + [None], log)
  {
    assert CapsOf(subs + [s]) == CapsOf(subs) + [s.capacity];
    MoreSubs(CapsOf(subs), s.capacity, log);
  }

  // One legal operation, with the queues and handlers changed as it says.
  lemma ReplaysStep(subs: seq<Sub>, queues: seq<seq<Event>>, busy: seq<Option<Event>>, log: seq<Op>, op: Op,
                    q: seq<Event>, b: Option<Event>)
    requires Replays(subs, queues, busy, log) && op.sub < |subs|
    requires Possible(subs[op.sub].capacity, queues[op.sub], busy[op.sub], op)
    requires q == QueueOf(log + [op], op.sub) && b == BusyOf(log + [op], op.sub)
    ensures Replays(subs, queues[op.sub := q], busy[op.sub := b], log + [op])
  {
    Snoc(CapsOf(subs), log, op);
    forall i | 0 <= i < |subs|
      ensures queues[op.sub := q][i] == QueueOf(log + [op], i) && busy[op.sub := b][i] == BusyOf(log + [op], i)
    {
      Extend(log, op, i);
    }
  }

  // How many more copies of x there are in m1 than in m0.
  function Change<T>(m0: multiset<T>, m1: multiset<T>, x: T): int {
    var n: int := m1[x];
    n - m0[x]
  }

  // What publishing the events of pub1 - pub0 offers to subscription j.
  function Share(subs: seq<Sub>, j: nat, e: Event, pub0: multiset<Event>, pub1: multiset<Event>): int {
    if j < |subs| && Wants(subs[j], e) then Change(pub0, pub1, e) else 0
  }

  // From log0 to log1 every event published in between was offered to every subscription that
  // wants it as often as it was published, and no subscription was offered anything else,
  // except for event ev, which was offered once more to the subscriptions of extra.
  ghost predicate DeliveredTo(subs: seq<Sub>, log0: seq<Op>, pub0: multiset<Event>,
                              log1: seq<Op>, pub1: multiset<Event>,
                              extra: seq<nat>, ev: Event) {
    && log0 <= log1
    && forall j: nat, e ::
         Offered(log1, j, e) == Offered(log0, j, e) + Share(subs, j, e, pub0, pub1) + One(e == ev && j in extra)
  }

  ghost predicate Delivered(subs: seq<Sub>, log0: seq<Op>, pub0: multiset<Event>,
                          log1: seq<Op>, pub1: multiset<Event>) {
    log0 <= log1 && forall j: nat, e :: Offered(log1, j, e) == Offered(log0, j, e) + Share(subs, j, e, pub0, pub1)
  }

  // The event as which the bus publishes a letter.
  predicate IsLetterEvent(e: Event) { e.payload.Dead? && e == LetterEvent(e.payload.letter) }

  // The bus published nothing of its own but the dead letters of let1 - let0, each once.
  ghost predicate OwnPublications(pub0: multiset<Event>, let0: multiset<Letter>, pub1: multiset<Event>,
    let1: multiset<Letter>) {
    forall e :: pub1[e] == pub0[e] + if IsLetterEvent(e) then Change(let0, let1, e.payload.letter) else 0
  }

  lemma OwnChain(p0: multiset<Event>, t0: multiset<Letter>, p1: multiset<Event>, t1: multiset<Letter>,
    p2: multiset<Event>, t2: multiset<Letter>)
    requires OwnPublications(p0, t0, p1, t1) && OwnPublications(p1, t1, p2, t2)
    ensures OwnPublications(p0, t0, p2, t2)
  {
  }

  function LetterEvent(l: Letter): Event { Event(DEAD_LETTER, DEAD_LETTER, Dead(l)) }

  lemma OnceThenDelivered(subs: seq<Sub>, l0: seq<Op>, p0: multiset<Event>, l1: seq<Op>, p1: multiset<Event>,
                          l2: seq<Op>, p2: multiset<Event>, i: nat, ev: Event)
    requires DeliveredTo(subs, l0, p0, l1, p1, [i], ev) && Delivered(subs, l1, p1, l2, p2)
    ensures DeliveredTo(subs, l0, p0, l2, p2, [i], ev)
  {
    hide Offered, Wants;
  }

  lemma DeliveredOneMore(subs: seq<Sub>, l0: seq<Op>, p0: multiset<Event>, l1: seq<Op>, p1: multiset<Event>,
                         l2: seq<Op>, p2: multiset<Event>, done: seq<nat>, i: nat, ev: Event)
    requires DeliveredTo(subs, l0, p0, l1, p1, done, ev) && DeliveredTo(subs, l1, p1, l2, p2, [i], ev) && i !in done
    ensures DeliveredTo(subs, l0, p0, l2, p2, done + [i], ev)
  {
    hide Offered, Wants;
  }

  // An event offered once to exactly the subscriptions that want it has been published once.
  lemma DeliveredToAll(subs: seq<Sub>, l0: seq<Op>, p0: multiset<Event>, l1: seq<Op>, p1: multiset<Event>,
    all: seq<nat>, ev: Event)
    requires DeliveredTo(subs, l0, p0, l1, p1, all, ev)
    requires forall j: nat :: j in all <==> j < |subs| && Wants(subs[j], ev)
    ensures Delivered(subs, l0, p0, l1, p1 + multiset{ev})
  {
    hide Offered, Wants;
  }

  lemma QuietWantNoLetter(subs: seq<Sub>, l: Letter)
    ensures forall j :: 0 <= j < |subs| && Quiet(subs[j]) ==> !Wants(subs[j], LetterEvent(l))
  {
    hide Matches;
  }

  lemma NothingDelivered(subs: seq<Sub>, l: seq<Op>, p: multiset<Event>, t: multiset<Letter>, ev: Event)
    ensures DeliveredTo(subs, l, p, l, p, [], ev) && OwnPublications(p, t, p, t)
  {
  }

  lemma OwnOneMore(p0: multiset<Event>, t0: multiset<Letter>, p1: multiset<Event>, t1: multiset<Letter>, ev: Event)
    requires OwnPublications(p0, t0, p1, t1)
    ensures OwnPublications(p0 + multiset{ev}, t0, p1 + multiset{ev}, t1)
  {
  }

  // The letter for an event, unless the event is a dead letter itself.
  function OneLetterOf(ev: Event, sub: nat, reason: Reason): multiset<Letter> {
    if ev.topic == "eventbus.dead_letter" then multiset{} else multiset{Letter(ev, sub, reason)}
  }

  // Between the two histories ordinary event e was offered exactly once to each subscription
  // whose pattern matches its topic and whose predicate accepts it, and to no other.
  ghost predicate OfferedToAll(subs: seq<Sub>, log0: seq<Op>, log1: seq<Op>, e: Event) {
    e.topic != "eventbus.dead_letter" ==>
      forall j: nat :: Offered(log1, j, e)
                    == Offered(log0, j, e) + One(j < |subs| && Matches(subs[j].pattern, e.topic) && subs[j].accepts(e))
  }

  lemma NormalisedTopic(event: Event)
    ensures Normalised(event).topic == if event.topic == "" then event.kind else event.topic
  {
  }

  // What a Publish offers, in terms of the two fields as they were given.
  lemma PublishedOffers(subs: seq<Sub>, l0: seq<Op>, p0: multiset<Event>, t0: multiset<Letter>,
                        l1: seq<Op>, p1: multiset<Event>, t1: multiset<Letter>, event: Event)
    requires Delivered(subs, l0, p0, l1, p1) && OwnPublications(p0 + multiset{Normalised(event)}, t0, p1, t1)
    ensures event.topic == "" ==> OfferedToAll(subs, l0, l1, Event(event.kind, event.kind, event.payload))
    ensures event.topic != "" && event.kind == "" ==>
      OfferedToAll(subs, l0, l1, Event(event.topic, event.topic, event.payload))
    ensures event.topic != "" && event.kind != "" ==> OfferedToAll(subs, l0, l1, event)
  {
    hide Matches, Offered, Delivered, OwnPublications;
    var e := Normalised(event);
    if !IsLetter(e) {
      forall j: nat ensures Offered(l1, j, e) == Offered(l0, j, e) + One(j < |subs| && Wants(subs[j], e)) {
        OrdinaryOffers(subs, l0, p0, t0, l1, p1, t1, e, j, e);
      }
    }
  }

  // A queue within its capacity takes a new event while there is room. A full one drops its
  // oldest event for it, or keeps what it has.
  lemma QueueNextMeaning(s: Sub, q: seq<Event>, e: Event)
    requires |q| <= s.capacity
    ensures QueueNext(s, q, e)
         == if |q| < s.capacity then q + [e] else if q == [] || s.policy == DropNewest then q else q[1..] + [e]
  {
    if |q| == s.capacity && s.policy == DropNewest { assert (q + [e])[..s.capacity] == q; }
  }

  // For ordinary events: one published event is offered once to each subscription that wants
  // it, and nothing else is offered to anybody.
  lemma OrdinaryOffers(subs: seq<Sub>, l0: seq<Op>, p0: multiset<Event>, t0: multiset<Letter>,
                       l1: seq<Op>, p1: multiset<Event>, t1: multiset<Letter>,
                       ev: Event, j: nat, e: Event)
    requires Delivered(subs, l0, p0, l1, p1) && OwnPublications(p0 + multiset{ev}, t0, p1, t1) && !IsLetter(e)
    ensures Offered(l1, j, e) == Offered(l0, j, e) + One(j < |subs| && e == ev && Wants(subs[j], ev))
  {
    hide Offered, Wants;
    assert p1[e] == (p0 + multiset{ev})[e];
  }

  ghost predicate QuietKept(subs: seq<Sub>, q0: seq<seq<Event>>, q1: seq<seq<Event>>) {
    |q0| == |q1| == |subs| && forall j :: 0 <= j < |subs| && Quiet(subs[j]) ==> q1[j] == q0[j]
  }

  lemma ExtendOffers(subs: seq<Sub>, pub: multiset<Event>, log: seq<Op>, op: Op)
    ensures if Offer(op.kind) then DeliveredTo(subs, log, pub, log + [op], pub, [op.sub], op.ev)
      else Delivered(subs, log, pub, log + [op], pub)
  {
    hide Offered, Wants;
    forall j: nat, e
      ensures Offered(log + [op], j, e) == Offered(log, j, e) + One(op.sub == j && op.ev == e && Offer(op.kind))
    {
      Extend(log, op, j);
    }
  }

  function TrimDot(prefix: string): string {
    if |prefix| > 0 && prefix[|prefix| - 1] == '.' then prefix[..|prefix| - 1] else prefix
  }

  class Bus {
    var subs: seq<Sub>
    var subscribers: map<string, seq<nat>>
    var queues: seq<seq<Event>>
    var busy: seq<Option<Event>>
    var namespaces: map<string, string>
    var strict: bool
    var queueCapacity: nat
    var overflowPolicy: Policy
    const canonicalTopics: set<string>
    const reserved: set<string>

    // The channel operations so far and the dead letters so far.
    ghost var log: seq<Op>
    ghost var letters: multiset<Letter>
    // The events published so far to known topics, dead letters included.
    ghost var published: multiset<Event>

    // Everything that holds between the channel operations of a Publish.
    ghost predicate Consistent()
      reads this
    {
      && |queues| == |subs| == |busy| && Replays(subs, queues, busy, log) && Filed(subs, subscribers)
      && "eventbus" in namespaces && canonicalTopics == CANONICAL && reserved == RESERVED
    }

    // Between calls, every dropped ordinary event has been dead-lettered exactly once.
    ghost predicate Valid()
      reads this
    {
      Consistent() && letters == LettersOf(log)
    }

    constructor ()
      ensures Valid() && subs == [] && log == [] && strict
      ensures canonicalTopics == CANONICAL && namespaces.Keys == RESERVED == reserved
    {
      subs, subscribers, queues, busy := [], map[], [], [];
      namespaces := map["runtime" := "core", "execution" := "engine", "health" := "core", "eventbus" := "core"];
      strict, queueCapacity, overflowPolicy := true, 1000, DropOldest;
      canonicalTopics, reserved := CANONICAL, RESERVED;
      log, letters, published := [], multiset{}, multiset{};
    }

    method SetQueueCapacity(capacity: nat)
      modifies this`queueCapacity
      ensures queueCapacity == capacity
    {
      queueCapacity := capacity;
    }

    method SetOverflowPolicy(policy: Policy)
      modifies this`overflowPolicy
      ensures overflowPolicy == policy
    {
      overflowPolicy := policy;
    }

    method SetStrictMode(on: bool)
      modifies this`strict
      ensures strict == on
    {
      strict := on;
    }

    // A prefix is registered with or without its trailing dot, by one owner only.
    method RegisterNamespace(prefix: string, owner: string) returns (ok: bool)
      requires Valid()
      modifies this`namespaces
      ensures Valid()
      ensures ok <==> TrimDot(prefix) !in old(namespaces)
      ensures namespaces == if ok then old(namespaces)[TrimDot(prefix) := owner] else old(namespaces)
      ensures forall ns :: prefix == ns + "." || (prefix == ns && (ns == "" || ns[|ns| - 1] != '.')) ==>
        (ok <==> ns !in old(namespaces)) && (ok ==> namespaces == old(namespaces)[ns := owner])
    {
      var p := TrimDot(prefix);
      if p in namespaces { return false; }
      namespaces := namespaces[p := owner];
      return true;
    }

    predicate KnownTopic(topic: string)
      reads this`namespaces, this`strict
    {
      var ns := Split(topic)[0];
      ns in namespaces && (strict && ns in reserved ==> topic in canonicalTopics)
    }

    method Subscribe(pattern: string, accepts: Event -> bool) returns (id: nat)
      requires Valid()
      modifies this`subs, this`subscribers, this`queues, this`busy
      ensures Valid() && id == |old(subs)|
      ensures subs == old(subs) + [Sub(pattern, accepts, queueCapacity, overflowPolicy)]
      ensures queues == old(queues) + [[]] && busy == old(busy) + [None]
    {
      hide Filed, Replays, LettersOf;
      id := |subs|;
      var sub := Sub(pattern, accepts, queueCapacity, overflowPolicy);
      FiledMore(subs, subscribers, sub);
      ReplaysMore(subs, queues, busy, log, sub);
      subs := subs + [sub];
      subscribers := subscribers[pattern := (if pattern in subscribers then subscribers[pattern] else []) + [id]];
      queues, busy := queues + [[]], busy + [None];
    }

    // The matching subscriptions, in the order in which Go's map iteration meets their patterns.
    method GetMatching(ev: Event) returns (m: seq<nat>)
      requires Filed(subs, subscribers)
      ensures forall i :: 0 <= i < |m| ==> m[i] < |subs| && Wants(subs[m[i]], ev)
      ensures forall i, k :: 0 <= i < k < |m| ==> m[i] != m[k]
      ensures forall i :: 0 <= i < |subs| && Wants(subs[i], ev) ==> i in m
    {
      m := [];
      var keys := subscribers.Keys;
      while keys != {}
        invariant keys <= subscribers.Keys
        invariant forall i :: 0 <= i < |m| ==> m[i] < |subs| && Wants(subs[m[i]], ev) && subs[m[i]].pattern !in keys
        invariant forall i, k :: 0 <= i < k < |m| ==> m[i] != m[k]
        invariant forall i :: 0 <= i < |subs| && Wants(subs[i], ev) && subs[i].pattern !in keys ==> i in m
        decreases keys
      {
        var p :| p in keys;
        keys := keys - {p};
        var matched := MatchTopic(p, ev.topic);
        if matched {
          m := AppendAccepting(p, ev, m);
        }
      }
    }

    method AppendAccepting(p: string, ev: Event, m0: seq<nat>) returns (m: seq<nat>)
      requires Filed(subs, subscribers) && p in subscribers && Matches(p, ev.topic)
      requires forall i :: 0 <= i < |m0| ==> m0[i] < |subs| && subs[m0[i]].pattern != p
      requires forall i, k :: 0 <= i < k < |m0| ==> m0[i] != m0[k]
      ensures m0 <= m
      ensures forall i :: |m0| <= i < |m| ==> m[i] < |subs| && Wants(subs[m[i]], ev) && subs[m[i]].pattern == p
      ensures forall i, k :: 0 <= i < k < |m| ==> m[i] != m[k]
      ensures forall k :: 0 <= k < |subscribers[p]| && Wants(subs[subscribers[p][k]], ev) ==> subscribers[p][k] in m
    {
      m := m0;
      var list := subscribers[p];
      var k := 0;
      while k < |list|
        invariant 0 <= k <= |list| && m0 <= m
        invariant forall i :: |m0| <= i < |m| ==> m[i] in list[..k] && Wants(subs[m[i]], ev)
        invariant forall i, h :: 0 <= i < h < |m| ==> m[i] != m[h]
        invariant forall h :: 0 <= h < k && Wants(subs[list[h]], ev) ==> list[h] in m
      {
        assert list[..k + 1] == list[..k] + [list[k]];
        if subs[list[k]].accepts(ev) {
          assert list[k] !in list[..k];
          m := m + [list[k]];
        }
        k := k + 1;
      }
    }

    // ------------------------------------------------------------ channel operations

    // The non-blocking send.
    method TrySend(i: nat, ev: Event) returns (ok: bool)
      requires Consistent() && i < |subs|
      modifies this`queues, this`log
      ensures Consistent()
      ensures ok <==> |old(queues)[i]| < subs[i].capacity
      ensures queues == if ok then old(queues)[i := old(queues)[i] + [ev]] else old(queues)
      ensures log == if ok then old(log) + [Op(i, Accepted, ev)] else old(log)
    {
      if |queues[i]| >= subs[i].capacity { return false; }
      ghost var op := Op(i, Accepted, ev);
      Extend(log, op, i);
      ReplaysStep(subs, queues, busy, log, op, queues[i] + [ev], busy[i]);
      assert busy[i := busy[i]] == busy;
      queues := queues[i := queues[i] + [ev]];
      log := log + [op];
      return true;
    }

    // The non-blocking receive that makes room in a full queue.
    method PopOldest(i: nat) returns (oldest: Option<Event>)
      requires Consistent() && i < |subs| && |queues[i]| == subs[i].capacity
      modifies this`queues, this`log
      ensures Consistent()
      ensures if old(queues)[i] == [] then oldest == None && queues == old(queues) && log == old(log)
        else oldest == Some(old(queues)[i][0]) && queues == old(queues)[i := old(queues)[i][1..]]
             && log == old(log) + [Op(i, Evicted, old(queues)[i][0])]
    {
      if |queues[i]| == 0 { return None; }
      oldest := Some(queues[i][0]);
      ghost var op := Op(i, Evicted, queues[i][0]);
      Extend(log, op, i);
      ReplaysStep(subs, queues, busy, log, op, queues[i][1..], busy[i]);
      assert busy[i := busy[i]] == busy;
      queues := queues[i := queues[i][1..]];
      log := log + [op];
    }

    ghost method NoteRefused(i: nat, ev: Event)
      requires Consistent() && i < |subs| && |queues[i]| == subs[i].capacity
      modifies this`log
      ensures Consistent() && log == old(log) + [Op(i, Refused, ev)]
    {
      var op := Op(i, Refused, ev);
      Extend(log, op, i);
      ReplaysStep(subs, queues, busy, log, op, queues[i], busy[i]);
      assert busy[i := busy[i]] == busy && queues[i := queues[i]] == queues;
      log := log + [op];
    }

    // ------------------------------------------------------------ publish, enqueue, dead letter

    // Publish, Enqueue and DeadLetter call each other. The recursion ends although a dead
    // letter can itself overflow queues and evict further events: a dead letter is never
    // dead-lettered again, and each nested Publish of a dead letter was caused by an ordinary
    // event leaving the queues. The bound is (event is ordinary, ordinary events held).

    // A full queue gives up its oldest event or refuses the new one. At a quiet subscription
    // that leaves the last (first) capacity events of the queue followed by the new event; no
    // other quiet queue changes, and the event is offered to this subscription once.
    method Enqueue(i: nat, ev: Event)
      requires Valid() && i < |subs| && Wants(subs[i], ev)
      modifies this`queues, this`log, this`letters, this`published
      ensures Valid()
      ensures IsLetter(ev) ==> Held(queues) <= old(Held(queues))
      ensures forall j :: 0 <= j < |subs| && Quiet(subs[j]) ==>
        queues[j] == if j == i then QueueNext(subs[i], old(queues)[i], ev) else old(queues)[j]
      ensures DeliveredTo(subs, old(log), old(published), log, published, [i], ev)
      ensures OwnPublications(old(published), old(letters), published, letters)
      ensures old(letters) <= letters
      ensures Quiet(subs[i]) ==> var q := old(queues)[i];
        queues[i] == if |q| < subs[i].capacity then q + [ev]
          else if q == [] || subs[i].policy == DropNewest then q else q[1..] + [ev]
      decreases if IsLetter(ev) then 0 else 1, if IsLetter(ev) then Held(queues) else 0, 3
    {
      hide Replays, Filed, Matches, Split, Wants, Offered, LettersOf, Held, QueueNext, OneLetterOf;
      Within(i);
      QueueNextMeaning(subs[i], queues[i], ev);
      var sent := Accept(i, ev);
      if !sent {
        if subs[i].policy == DropNewest {
          Refuse(i, ev);
        } else {
          ghost var l0, p0, t0 := log, published, letters;
          MakeRoom(i);
          ghost var l1, p1, t1 := log, published, letters;
          sent := Accept(i, ev);
          if !sent { Refuse(i, ev); }
          OwnChain(p0, t0, p1, t1, published, letters);
        }
      }
    }

    // The non-blocking send, with its effect on the measure and on the offers.
    method Accept(i: nat, ev: Event) returns (ok: bool)
      requires Valid() && i < |subs|
      modifies this`queues, this`log
      ensures Valid() && |old(queues)[i]| <= subs[i].capacity
      ensures ok <==> |old(queues)[i]| < subs[i].capacity
      ensures queues == if ok then old(queues)[i := old(queues)[i] + [ev]] else old(queues)
      ensures if ok then DeliveredTo(subs, old(log), published, log, published, [i], ev) else log == old(log)
      ensures IsLetter(ev) ==> Held(queues) == old(Held(queues))
    {
      hide Replays, Filed, Matches, Split;
      Within(i);
      Extend(log, Op(i, Accepted, ev), i);
      ExtendOffers(subs, published, log, Op(i, Accepted, ev));
      HeldUpdate(queues, i, queues[i] + [ev]);
      OrdinaryAppend(queues[i], ev);
      ok := TrySend(i, ev);
    }

    // The new event is not queued and goes to the dead letters.
    method Refuse(i: nat, ev: Event)
      requires Valid() && i < |subs| && |queues[i]| == subs[i].capacity
      modifies this`queues, this`log, this`letters, this`published
      ensures Valid()
      ensures Held(queues) <= old(Held(queues))
      ensures QuietKept(subs, old(queues), queues)
      ensures DeliveredTo(subs, old(log), old(published), log, published, [i], ev)
      ensures OwnPublications(old(published), old(letters), published, letters)
      ensures old(letters) + OneLetterOf(ev, i, QueueOverflow) <= letters
      decreases if IsLetter(ev) then 0 else 1, if IsLetter(ev) then Held(queues) else 0, 1
    {
      hide Replays, Filed, Matches, Split, Wants, Offered, LettersOf, Held, Quiet;
      ghost var l0 := log;
      NoteRefused(i, ev);
      Extend(l0, Op(i, Refused, ev), i);
      ExtendOffers(subs, published, l0, Op(i, Refused, ev));
      ghost var p0, l1 := published, log;
      DeadLetter(ev, i, QueueOverflow);
      OnceThenDelivered(subs, l0, p0, l1, p0, log, published, i, ev);
    }

    // The oldest event leaves a full queue for the dead letters.
    method MakeRoom(i: nat)
      requires Valid() && i < |subs| && |queues[i]| == subs[i].capacity
      modifies this`queues, this`log, this`letters, this`published
      ensures Valid()
      ensures Held(queues) <= old(Held(queues))
      ensures forall j :: 0 <= j < |subs| && Quiet(subs[j]) ==>
        queues[j] == if j == i && old(queues)[i] != [] then old(queues)[i][1..] else old(queues)[j]
      ensures Delivered(subs, old(log), old(published), log, published)
      ensures OwnPublications(old(published), old(letters), published, letters)
      ensures old(letters) <= letters
      ensures old(queues)[i] != [] ==> old(letters) + OneLetterOf(old(queues)[i][0], i, QueueOverflow) <= letters
      decreases 0, Held(queues), 2
    {
      hide Replays, Filed, Matches, Split, Wants, Offered, LettersOf, Held, Quiet;
      ghost var q0, l0 := queues, log;
      var oldest := PopOldest(i);
      if oldest.Some? {
        Extend(l0, Op(i, Evicted, oldest.value), i);
        ExtendOffers(subs, published, l0, Op(i, Evicted, oldest.value));
        ghost var p0, l1 := published, log;
        HeldUpdate(q0, i, q0[i][1..]);
        DeadLetter(oldest.value, i, QueueOverflow);
      }
    }

    lemma Within(i: nat)
      requires Consistent() && i < |subs|
      ensures |queues[i]| <= subs[i].capacity
    {
      QueueWithinCapacity(CapsOf(subs), log, i);
    }

    method DeadLetter(ev: Event, sub: nat, reason: Reason)
      requires Consistent() && sub < |subs|
      requires LettersOf(log) == letters + if IsLetter(ev) then multiset{} else multiset{Letter(ev, sub, reason)}
      modifies this`queues, this`log, this`letters, this`published
      ensures Valid()
      ensures Held(queues) <= old(Held(queues))
      ensures QuietKept(subs, old(queues), queues)
      ensures Delivered(subs, old(log), old(published), log, published)
      ensures OwnPublications(old(published), old(letters), published, letters)
      ensures old(letters) + OneLetterOf(ev, sub, reason) <= letters
      decreases 0, Held(queues), if IsLetter(ev) then 0 else 5
    {
      hide Replays, Filed, Matches, Split, Wants, Offered, LettersOf, Held, Quiet;
      if ev.topic == DEAD_LETTER { return; }
      ghost var l, p0, t0 := Letter(ev, sub, reason), published, letters;
      QuietWantNoLetter(subs, l);
      letters := letters + multiset{l};
      DeadLetterTopicKnown();
      var _ := Publish(Event(DEAD_LETTER, "", Dead(Letter(ev, sub, reason))));
    }

    // The event is normalised first. Publishing to an unknown topic does nothing. Otherwise the
    // event and every dead letter it causes is offered exactly once to every subscription that
    // wants it and to no other, and every quiet queue ends up as its policy says.
    method Publish(event: Event) returns (ok: bool)
      requires Valid()
      modifies this`queues, this`log, this`letters, this`published
      ensures Valid()
      ensures ok <==> KnownTopic(Normalised(event).topic)
      ensures !ok ==> queues == old(queues) && log == old(log) && letters == old(letters) && published == old(published)
      ensures ok ==> forall j :: 0 <= j < |subs| && Quiet(subs[j]) ==>
        queues[j] == if Wants(subs[j], Normalised(event)) then QueueNext(subs[j], old(queues)[j], Normalised(event))
          else old(queues)[j]
      ensures ok ==> Delivered(subs, old(log), old(published), log, published)
      ensures ok ==> OwnPublications(old(published) + multiset{Normalised(event)}, old(letters), published, letters)
      ensures old(letters) <= letters
      ensures event.topic == "" ==> (ok <==> KnownTopic(event.kind))
      ensures event.topic != "" ==> (ok <==> KnownTopic(event.topic))
      ensures ok && event.topic == "" ==>
        OfferedToAll(subs, old(log), log, Event(event.kind, event.kind, event.payload))
      ensures ok && event.topic != "" && event.kind == "" ==>
        OfferedToAll(subs, old(log), log, Event(event.topic, event.topic, event.payload))
      ensures ok && event.topic != "" && event.kind != "" ==> OfferedToAll(subs, old(log), log, event)
      ensures IsLetter(Normalised(event)) ==> Held(queues) <= old(Held(queues))
      decreases if IsLetter(Normalised(event)) then 0 else 1, if IsLetter(Normalised(event)) then Held(queues) else 0, 4
    {
      hide Replays, Filed, Matches, Split, Wants, Offered, QueueNext, Quiet, LettersOf, Held, DeliveredTo, Delivered;
      hide OwnPublications, Normalised, CapsOf, Ordinary, OfferedToAll, KnownTopic, OneLetterOf;
      NormalisedTopic(event);
      var ev := Normalised(event);
      if !KnownTopic(ev.topic) { return false; }
      ghost var q0, l0, p0, t0 := queues, log, published, letters;
      var m := GetMatching(ev);
      var k := 0;
      NothingDelivered(subs, l0, p0, t0, ev);
      while k < |m|
        invariant 0 <= k <= |m| && Valid()
        invariant forall j :: 0 <= j < |subs| && Quiet(subs[j]) ==>
          queues[j] == if j in m[..k] then QueueNext(subs[j], q0[j], ev) else q0[j]
        invariant DeliveredTo(subs, l0, p0, log, published, m[..k], ev)
        invariant OwnPublications(p0, t0, published, letters) && t0 <= letters
        invariant IsLetter(ev) ==> Held(queues) <= Held(q0)
      {
        assert m[..k + 1] == m[..k] + [m[k]];
        assert m[k] !in m[..k];
        ghost var l1, p1, t1 := log, published, letters;
        Enqueue(m[k], ev);
        DeliveredOneMore(subs, l0, p0, l1, p1, log, published, m[..k], m[k], ev);
        OwnChain(p0, t0, p1, t1, published, letters);
        k := k + 1;
      }
      assert m[..k] == m;
      DeliveredToAll(subs, l0, p0, log, published, m, ev);
      OwnOneMore(p0, t0, published, letters, ev);
      published := published + multiset{ev};
      PublishedOffers(subs, l0, p0, t0, log, published, letters, event);
      return true;
    }

    lemma DeadLetterTopicKnown()
      requires Consistent()
      ensures KnownTopic(DEAD_LETTER)
    {
      SplitPrefix("eventbus", "dead_letter");
      assert DEAD_LETTER == "eventbus" + "." + "dead_letter";
    }

    // A topic is known exactly when the part before its first dot is a registered namespace and,
    // in strict mode under one of the four reserved ones, the topic is a canonical one.
    lemma KnownTopicIff(ns: string, rest: string)
      requires Consistent() && NoDot(ns)
      ensures KnownTopic(ns + "." + rest) <==>
        ns in namespaces
        && (strict && ns in {"runtime", "execution", "health", "eventbus"} ==> ns + "." + rest in CANONICAL)
      ensures KnownTopic(ns) <==>
        ns in namespaces && (strict && ns in {"runtime", "execution", "health", "eventbus"} ==> ns in CANONICAL)
    {
      SplitPrefix(ns, rest);
      SplitWhole(ns);
    }

    // ------------------------------------------------------------ the consumer

    method Receive(i: nat) returns (ev: Event)
      requires Valid() && i < |subs| && queues[i] != [] && busy[i].None?
      modifies this`queues, this`busy, this`log
      ensures Valid()
      ensures ev == old(queues)[i][0] && queues == old(queues)[i := old(queues)[i][1..]]
      ensures busy == old(busy)[i := Some(ev)] && log == old(log) + [Op(i, Received, ev)]
    {
      ev := queues[i][0];
      ghost var op := Op(i, Received, ev);
      Extend(log, op, i);
      ReplaysStep(subs, queues, busy, log, op, queues[i][1..], Some(ev));
      queues := queues[i := queues[i][1..]];
      busy := busy[i := Some(ev)];
      log := log + [op];
    }

    // Three tries; the first success ends the event, a panic or three errors dead-letter it with
    // the matching reason.
    method HandleWithRecovery(i: nat, outcome: nat -> HandlerOutcome) returns (handled: bool)
      requires Valid() && i < |subs| && busy[i].Some?
      modifies this`queues, this`busy, this`log, this`letters, this`published
      ensures Valid() && busy == old(busy)[i := None]
      ensures handled <==> exists a: nat :: EndsAt(outcome, a) && outcome(a).Nil?
      ensures handled ==> queues == old(queues) && letters == old(letters) && published == old(published)
      ensures |log| > |old(log)|
        && log[|old(log)|] == Op(i, if handled then Handled else GaveUp(Panicked(outcome)), old(busy)[i].value)
      ensures QuietKept(subs, old(queues), queues)
      ensures Delivered(subs, old(log), old(published), log, published)
      ensures OwnPublications(old(published), old(letters), published, letters)
      ensures handled <==>
        outcome(0).Nil? || (outcome(0).Err? && (outcome(1).Nil? || (outcome(1).Err? && outcome(2).Nil?)))
      ensures !handled ==> var e := old(busy)[i].value;
        var panicked :=
          outcome(0).Panic? || (outcome(0).Err? && (outcome(1).Panic? || (outcome(1).Err? && outcome(2).Panic?)));
        old(letters) + OneLetterOf(e, i, if panicked then HandlerPanic else HandlerError) <= letters
    {
      hide Replays, Filed, Matches, Split, Wants, Offered, LettersOf, Held, Quiet;
      var ev := busy[i].value;
      var attempt := 0;
      while attempt < 3
        invariant 0 <= attempt <= 3 && forall b: nat :: b < attempt ==> outcome(b).Err?
      {
        match outcome(attempt) {
          case Nil =>
            assert EndsAt(outcome, attempt);
            Settle(i, ev, Handled);
            return true;
          case Panic =>
            assert EndsAt(outcome, attempt);
            GiveUp(i, ev, true);
            return false;
          case Err =>
        }
        attempt := attempt + 1;
      }
      GiveUp(i, ev, false);
      return false;
    }

    method GiveUp(i: nat, ev: Event, panicked: bool)
      requires Valid() && i < |subs| && busy[i] == Some(ev)
      modifies this`queues, this`busy, this`log, this`letters, this`published
      ensures Valid() && busy == old(busy)[i := None]
      ensures |log| > |old(log)| && log[|old(log)|] == Op(i, GaveUp(panicked), ev)
      ensures QuietKept(subs, old(queues), queues)
      ensures Delivered(subs, old(log), old(published), log, published)
      ensures OwnPublications(old(published), old(letters), published, letters)
      ensures old(letters) + OneLetterOf(ev, i, if panicked then HandlerPanic else HandlerError) <= letters
    {
      hide Replays, Filed, Matches, Split, Wants, Offered, LettersOf, Held, Quiet;
      ghost var l0, p0 := log, published;
      Settle(i, ev, GaveUp(panicked));
      ghost var l1 := log;
      DeadLetter(ev, i, if panicked then HandlerPanic else HandlerError);
    }

    method Settle(i: nat, ev: Event, kind: Kind)
      requires Valid() && i < |subs| && busy[i] == Some(ev) && (kind.Handled? || kind.GaveUp?)
      modifies this`busy, this`log
      ensures Consistent() && busy == old(busy)[i := None] && log == old(log) + [Op(i, kind, ev)]
      ensures Delivered(subs, old(log), published, log, published)
      ensures LettersOf(log) == LettersOf(old(log))
        + match LetterOf(Op(i, kind, ev)) case Some(l) => multiset{l} case None => multiset{}
    {
      ghost var op := Op(i, kind, ev);
      Extend(log, op, i);
      ExtendOffers(subs, published, log, op);
      ReplaysStep(subs, queues, busy, log, op, queues[i], None);
      assert queues[i := queues[i]] == queues;
      busy := busy[i := None];
      log := log + [op];
    }
  }

  ghost predicate Panicked(outcome: nat -> HandlerOutcome) {
    exists a: nat :: EndsAt(outcome, a) && outcome(a).Panic?
  }

  // The handler's tries end at number a: all before it returned errors, and it did not.
  predicate EndsAt(outcome: nat -> HandlerOutcome, a: nat) {
    a < 3 && !outcome(a).Err? && forall b: nat :: b < a ==> outcome(b).Err?
  }

  datatype HandlerOutcome = Nil | Err | Panic

  lemma {:induction false} SplitPrefix(ns: string, rest: string)
    requires NoDot(ns)
    ensures Split(ns + "." + rest)[0] == ns
  {
    var s := ns + "." + rest;
    if ns == "" {
      assert s[0] == '.';
    } else {
      assert s[1..] == ns[1..] + "." + rest;
      SplitPrefix(ns[1..], rest);
      assert s[0] == ns[0] && ns == [ns[0]] + ns[1..];
    }
  }

  lemma {:induction false} SplitWhole(s: string)
    requires NoDot(s)
    ensures Split(s) == [s]
  {
    if s != "" {
      SplitWhole(s[1..]);
      assert s[0] != '.' && s == [s[0]] + s[1..];
    }
  }

  // Between calls of the bus: each ordinary event offered to a subscription is, counted with
  // multiplicity, exactly one of handled, being handled, queued, or published as a dead letter
  // of that subscription; and no queue exceeds its capacity.
  lemma BusConservation(subs: seq<Sub>, queues: seq<seq<Event>>, busy: seq<Option<Event>>, log: seq<Op>,
                        letters: multiset<Letter>, i: nat, e: Event)
    requires Replays(subs, queues, busy, log) && letters == LettersOf(log)
    requires i < |subs| && !IsLetter(e)
    ensures Offered(log, i, e)
         == HandledOf(log, i, e) + LetterCount(letters, i, e) + multiset(queues[i])[e] + One(busy[i] == Some(e))
    ensures |queues[i]| <= subs[i].capacity
  {
    OffersAccounted(CapsOf(subs), log, i, e);
    DropsCallForLetters(log, i, e);
    QueueWithinCapacity(CapsOf(subs), log, i);
  }
}
