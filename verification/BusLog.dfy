// Histories of channel operations on subscription queues, and what every history keeps.

module BusLog {
  import opened Option

  datatype Reason = QueueOverflow | HandlerError | HandlerPanic

  datatype Letter = Letter(event: Event, subscriber: nat, reason: Reason)

  datatype Payload = Data(text: string) | Dead(letter: Letter)

  // kind is the older Type field, which stands in for a missing topic and the other way round.
  datatype Event = Event(topic: string, kind: string, payload: Payload)

  function Normalised(e: Event): Event {
    if e.topic == "" then e.(topic := e.kind) else if e.kind == "" then e.(kind := e.topic) else e
  }

  const DEAD_LETTER := "eventbus.dead_letter"

  predicate IsLetter(e: Event) { e.topic == DEAD_LETTER }

  // What can happen to an event at one subscription: the send succeeds; it is popped as the
  // oldest to make room; it is not queued because the queue is full; the consumer receives it;
  // the handler returns nil; or the handler fails for good.
  datatype Kind = Accepted | Evicted | Refused | Received | Handled | GaveUp(panicked: bool)

  datatype Op = Op(sub: nat, kind: Kind, ev: Event)

  function Last<T>(s: seq<T>): T
    requires |s| > 0
  {
    s[|s| - 1]
  }

  function Front<T>(s: seq<T>): seq<T>
    requires |s| > 0
  {
    s[..|s| - 1]
  }

  // What an operation makes of the queue and the handler of its subscription.
  function NextQueue(q: seq<Event>, op: Op): seq<Event> {
    match op.kind
    case Accepted => q + [op.ev]
    case Evicted => if q == [] then [] else q[1..]
    case Received => if q == [] then [] else q[1..]
    case _ => q
  }

  function NextBusy(busy: Option<Event>, op: Op): Option<Event> {
    match op.kind
    case Received => Some(op.ev)
    case Handled => None
    case GaveUp(_) => None
    case _ => busy
  }

  // The queue of subscription i after a history.
  function QueueOf(log: seq<Op>, i: nat): seq<Event> {
    if log == [] then []
    else if Last(log).sub != i then QueueOf(Front(log), i)
    else NextQueue(QueueOf(Front(log), i), Last(log))
  }

  // The event the consumer of subscription i is handling.
  function BusyOf(log: seq<Op>, i: nat): Option<Event> {
    if log == [] then None
    else if Last(log).sub != i then BusyOf(Front(log), i)
    else NextBusy(BusyOf(Front(log), i), Last(log))
  }

  // Whether an operation can happen: sends need room, refusals and evictions a full queue, the
  // head leaves first, and a handler outcome concerns the event being handled.
  predicate Possible(capacity: nat, q: seq<Event>, busy: Option<Event>, op: Op) {
    match op.kind
    case Accepted => |q| < capacity
    case Evicted => |q| == capacity && q != [] && q[0] == op.ev
    case Refused => |q| == capacity
    case Received => q != [] && q[0] == op.ev && busy.None?
    case Handled => busy == Some(op.ev)
    case GaveUp(_) => busy == Some(op.ev)
  }

  predicate LegalLog(caps: seq<nat>, log: seq<Op>) {
    log == [] ||
    (LegalLog(caps, Front(log))
     && Last(log).sub < |caps|
     && Possible(caps[Last(log).sub], QueueOf(Front(log), Last(log).sub), BusyOf(Front(log), Last(log).sub), Last(log)))
  }

  lemma Snoc(caps: seq<nat>, log: seq<Op>, op: Op)
    ensures Front(log + [op]) == log && Last(log + [op]) == op
    ensures LegalLog(caps, log + [op]) <==>
      LegalLog(caps, log) && op.sub < |caps| && Possible(caps[op.sub], QueueOf(log, op.sub), BusyOf(log, op.sub), op)
  {
  }

  // ---------------------------------------------------------------- counting

  predicate Offer(k: Kind) { k.Accepted? || k.Refused? }
  predicate Drop(k: Kind) { k.Evicted? || k.Refused? || k.GaveUp? }

  function One(b: bool): nat { if b then 1 else 0 }

  // How often an operation of a kind happened to event e at subscription i.
  function Count(log: seq<Op>, i: nat, e: Event, kind: Kind -> bool): nat {
    if log == [] then 0 else
      Count(Front(log), i, e, kind) + One(Last(log).sub == i && Last(log).ev == e && kind(Last(log).kind))
  }

  function Offered(log: seq<Op>, i: nat, e: Event): nat { Count(log, i, e, k => Offer(k)) }
  function Dropped(log: seq<Op>, i: nat, e: Event): nat { Count(log, i, e, k => Drop(k)) }
  function HandledOf(log: seq<Op>, i: nat, e: Event): nat { Count(log, i, e, (k: Kind) => k.Handled?) }

  // Capacity: no queue ever exceeds its capacity.
  lemma {:induction false} QueueWithinCapacity(caps: seq<nat>, log: seq<Op>, i: nat)
    requires LegalLog(caps, log) && i < |caps|
    ensures |QueueOf(log, i)| <= caps[i]
  {
    if log != [] { QueueWithinCapacity(caps, Front(log), i); }
  }

  // What one possible operation does to the account of event e at its subscription.
  lemma StepAccounted(capacity: nat, q: seq<Event>, busy: Option<Event>, op: Op, e: Event)
    requires Possible(capacity, q, busy, op)
    ensures One(op.ev == e && Offer(op.kind)) + multiset(q)[e] + One(busy == Some(e))
         == One(op.ev == e && (op.kind.Handled? || Drop(op.kind)))
          + multiset(NextQueue(q, op))[e] + One(NextBusy(busy, op) == Some(e))
  {
    if op.kind.Evicted? || op.kind.Received? { assert q == [q[0]] + q[1..]; }
  }

  // Conservation: over every legal history, each event offered to a subscription is, counted
  // with multiplicity, exactly one of handled, being handled, queued, or dropped (evicted,
  // refused or given up by the handler).
  lemma {:induction false} OffersAccounted(caps: seq<nat>, log: seq<Op>, i: nat, e: Event)
    requires LegalLog(caps, log)
    ensures Offered(log, i, e)
         == HandledOf(log, i, e) + Dropped(log, i, e) + multiset(QueueOf(log, i))[e] + One(BusyOf(log, i) == Some(e))
  {
    hide Possible, NextQueue, NextBusy;
    if log != [] {
      OffersAccounted(caps, Front(log), i, e);
      var op := Last(log);
      if op.sub == i { StepAccounted(caps[i], QueueOf(Front(log), i), BusyOf(Front(log), i), op, e); }
    }
  }

  // ---------------------------------------------------------------- order

  function AcceptedBy(log: seq<Op>, i: nat): seq<Event> {
    if log == [] then [] else
      AcceptedBy(Front(log), i) + if Last(log).sub == i && Last(log).kind.Accepted? then [Last(log).ev] else []
  }

  function ReceivedBy(log: seq<Op>, i: nat): seq<Event> {
    if log == [] then [] else
      ReceivedBy(Front(log), i) + if Last(log).sub == i && Last(log).kind.Received? then [Last(log).ev] else []
  }

  // Events that left the queue at its head, received or evicted.
  function LeftBy(log: seq<Op>, i: nat): seq<Event> {
    if log == [] then [] else
      LeftBy(Front(log), i)
      + if Last(log).sub == i && (Last(log).kind.Received? || Last(log).kind.Evicted?) then [Last(log).ev] else []
  }

  predicate Subsequence<T(==)>(a: seq<T>, b: seq<T>) {
    if a == [] then true
    else if b == [] then false
    else (Last(a) == Last(b) && Subsequence(Front(a), Front(b))) || Subsequence(a, Front(b))
  }

  lemma {:induction false} SubsequencePrefix<T>(a: seq<T>, b: seq<T>, c: seq<T>)
    requires Subsequence(a, b)
    ensures Subsequence(a, b + c)
    decreases |c|
  {
    if c == [] {
      assert b + c == b;
    } else {
      SubsequencePrefix(a, b, Front(c));
      assert Front(b + c) == b + Front(c);
    }
  }

  // FIFO: what was accepted is what left at the head followed by what is still queued.
  lemma {:induction false} QueuesAreFifo(caps: seq<nat>, log: seq<Op>, i: nat)
    requires LegalLog(caps, log)
    ensures AcceptedBy(log, i) == LeftBy(log, i) + QueueOf(log, i)
  {
    if log != [] {
      QueuesAreFifo(caps, Front(log), i);
      var q := QueueOf(Front(log), i);
      if Last(log).sub == i && (Last(log).kind.Evicted? || Last(log).kind.Received?) {
        assert q == [q[0]] + q[1..];
      }
    }
  }

  lemma {:induction false} ReceivedAmongLeft(log: seq<Op>, i: nat)
    ensures Subsequence(ReceivedBy(log, i), LeftBy(log, i))
  {
    if log != [] {
      var op := Last(log);
      var r, l := ReceivedBy(Front(log), i), LeftBy(Front(log), i);
      ReceivedAmongLeft(Front(log), i);
      if op.sub == i && op.kind.Received? {
        assert Front(r + [op.ev]) == r && Front(l + [op.ev]) == l;
      } else if op.sub == i && op.kind.Evicted? {
        assert r + [] == r;
        SubsequencePrefix(r, l, [op.ev]);
      } else {
        assert r + [] == r && l + [] == l;
      }
    }
  }

  // Order: a subscription receives its events in the order in which they were accepted.
  lemma ReceivedInAcceptanceOrder(caps: seq<nat>, log: seq<Op>, i: nat)
    requires LegalLog(caps, log)
    ensures Subsequence(ReceivedBy(log, i), AcceptedBy(log, i))
  {
    QueuesAreFifo(caps, log, i);
    ReceivedAmongLeft(log, i);
    SubsequencePrefix(ReceivedBy(log, i), LeftBy(log, i), QueueOf(log, i));
  }

  // ---------------------------------------------------------------- dead letters

  // The dead letter an operation calls for: drops of ordinary events only.
  function LetterOf(op: Op): Option<Letter> {
    if IsLetter(op.ev) then None
    else match op.kind
      case Evicted => Some(Letter(op.ev, op.sub, QueueOverflow))
      case Refused => Some(Letter(op.ev, op.sub, QueueOverflow))
      case GaveUp(p) => Some(Letter(op.ev, op.sub, if p then HandlerPanic else HandlerError))
      case _ => None
  }

  function LettersOf(log: seq<Op>): multiset<Letter> {
    if log == [] then multiset{} else
      LettersOf(Front(log)) + match LetterOf(Last(log)) case Some(l) => multiset{l} case None => multiset{}
  }

  // How many of the letters concern event e at subscription i.
  function LetterCount(letters: multiset<Letter>, i: nat, e: Event): nat {
    letters[Letter(e, i, QueueOverflow)] + letters[Letter(e, i, HandlerError)] + letters[Letter(e, i, HandlerPanic)]
  }

  lemma OneLetter(op: Op, i: nat, e: Event)
    requires !IsLetter(e)
    ensures LetterCount(match LetterOf(op) case Some(l) => multiset{l} case None => multiset{}, i, e)
         == One(op.sub == i && op.ev == e && Drop(op.kind))
  {
    if LetterOf(op).Some? {
      var l := LetterOf(op).value;
      assert l.event == op.ev && l.subscriber == op.sub;
    }
  }

  // Every drop of an ordinary event calls for exactly one letter, and nothing else does.
  lemma {:induction false} DropsCallForLetters(log: seq<Op>, i: nat, e: Event)
    requires !IsLetter(e)
    ensures LetterCount(LettersOf(log), i, e) == Dropped(log, i, e)
  {
    if log != [] {
      DropsCallForLetters(Front(log), i, e);
      OneLetter(Last(log), i, e);
    }
  }

  // The effect of one more operation on everything a history says.
  lemma Extend(log: seq<Op>, op: Op, i: nat)
    ensures op.sub != i ==> QueueOf(log + [op], i) == QueueOf(log, i) && BusyOf(log + [op], i) == BusyOf(log, i)
    ensures op.sub == i && op.kind.Accepted? ==> QueueOf(log + [op], i) == QueueOf(log, i) + [op.ev]
    ensures op.sub == i && (op.kind.Evicted? || op.kind.Received?) && QueueOf(log, i) != [] ==>
      QueueOf(log + [op], i) == QueueOf(log, i)[1..]
    ensures op.sub == i && !op.kind.Accepted? && !op.kind.Evicted? && !op.kind.Received? ==>
      QueueOf(log + [op], i) == QueueOf(log, i)
    ensures op.sub == i && (op.kind.Accepted? || op.kind.Evicted? || op.kind.Refused?) ==>
      BusyOf(log + [op], i) == BusyOf(log, i)
    ensures op.sub == i && op.kind.Received? ==> BusyOf(log + [op], i) == Some(op.ev)
    ensures op.sub == i && (op.kind.Handled? || op.kind.GaveUp?) ==> BusyOf(log + [op], i) == None
    ensures LettersOf(log + [op]) == LettersOf(log)
      + match LetterOf(op) case Some(l) => multiset{l} case None => multiset{}
    ensures forall e ::
      Offered(log + [op], i, e) == Offered(log, i, e) + One(op.sub == i && op.ev == e && Offer(op.kind))
  {
    assert Front(log + [op]) == log && Last(log + [op]) == op;
  }
}
