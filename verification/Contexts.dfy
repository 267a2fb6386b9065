// The layered execution context of core/context/context.go.

module Contexts {
  import opened Option
  import opened Scheduler

  // cell names the shared counter of amounts spent; copies of a budget share the cell.
  datatype CostBudget = CostBudget(limit: real, cell: Option<nat>, currency: string)

  datatype RuntimeLayer = RuntimeLayer(instance: string, version: string)
  datatype SessionLayer = SessionLayer(session: string, user: string)
  datatype UserLayer = UserLayer(user: string, org: string, claims: map<string, string>)

  // deadline None is Go's zero time.
  datatype RequestLayer = RequestLayer(
    execution: string, parent: string, trace: string, deadline: Option<int>,
    priority: PriorityClass, budget: Option<CostBudget>, attempt: int, metadata: map<string, string>)

  // The plain string values kept beside the layers for older readers.
  datatype Compat = Compat(trace: string, session: string, user: string, execution: string)

  // deadline is the one the context itself enforces.
  datatype Ctx = Ctx(
    runtime: Option<RuntimeLayer>, session: Option<SessionLayer>, user: Option<UserLayer>,
    request: Option<RequestLayer>, compat: Compat, deadline: Option<int>, sensitive: set<string>)

  const NO_REQUEST := RequestLayer("", "", "", None, Custom(""), None, 0, map[])
  const LIMIT: nat := 4096

  function NewRoot(instance: string, version: string): Ctx {
    Ctx(Some(RuntimeLayer(instance, version)), None, None, None, Compat("", "", "", ""), None, {})
  }

  // ---------------------------------------------------------------- accessors

  function GetSessionID(c: Ctx): string { if c.session.Some? then c.session.value.session else c.compat.session }

  function GetUserID(c: Ctx): string {
    if c.user.Some? then c.user.value.user else if c.session.Some? then c.session.value.user else c.compat.user
  }

  function GetTraceID(c: Ctx): string { if c.request.Some? then c.request.value.trace else c.compat.trace }
  function GetExecutionID(c: Ctx): string { if c.request.Some? then c.request.value.execution else c.compat.execution }
  function GetParentExecutionID(c: Ctx): string { if c.request.Some? then c.request.value.parent else "" }
  function GetPriority(c: Ctx): PriorityClass { if c.request.Some? then c.request.value.priority else Normal }
  function GetAttemptNumber(c: Ctx): int { if c.request.Some? then c.request.value.attempt else 1 }
  function GetCostBudget(c: Ctx): Option<CostBudget> { if c.request.Some? then c.request.value.budget else None }

  // The request layer a derivation copies from.
  function Request(c: Ctx): RequestLayer { if c.request.Some? then c.request.value else NO_REQUEST }

  // ---------------------------------------------------------------- metadata size

  function EntrySize(k: string, v: string): nat { |k| + |v| }

  // Key and value bytes of all entries.
  ghost function Size(m: map<string, string>): nat
    decreases |m|
  {
    if m == map[] then 0 else
      var k :| k in m;
      EntrySize(k, m[k]) + Size(m - {k})
  }

  // The order in which entries are summed does not matter.
  lemma {:induction false} SizeWithout(m: map<string, string>, k: string)
    requires k in m
    ensures Size(m) == EntrySize(k, m[k]) + Size(m - {k})
    decreases |m|
  {
    var c :| c in m && Size(m) == EntrySize(c, m[c]) + Size(m - {c});
    if c != k {
      SizeWithout(m - {c}, k);
      SizeWithout(m - {k}, c);
      assert m - {c} - {k} == m - {k} - {c};
    }
  }

  // No entries have size 0, a new entry adds its key and value bytes, and an entry under a key
  // already there replaces one value by another.
  lemma SizeWith(m: map<string, string>, k: string, v: string)
    ensures m == map[] ==> Size(m) == 0
    ensures k !in m ==> Size(m[k := v]) == Size(m) + |k| + |v|
    ensures k in m ==> Size(m[k := v]) == Size(m) - |m[k]| + |v|
  {
    SizeWithout(m[k := v], k);
    if k in m {
      SizeWithout(m, k);
      assert m[k := v] - {k} == m - {k};
    } else {
      assert m[k := v] - {k} == m;
    }
  }

  lemma {:induction false} SizeOfPart(a: map<string, string>, b: map<string, string>)
    requires forall k :: k in a ==> k in b && a[k] == b[k]
    ensures Size(a) <= Size(b)
    decreases |a|
  {
    if a != map[] {
      var k :| k in a;
      SizeWithout(a, k);
      SizeWithout(b, k);
      SizeOfPart(a - {k}, b - {k});
    }
  }

  method MeasureMetadata(m: map<string, string>) returns (n: nat)
    ensures n == Size(m)
  {
    n := 0;
    var rest := m;
    while rest.Keys != {}
      invariant rest.Keys <= m.Keys && forall k :: k in rest ==> rest[k] == m[k]
      invariant n + Size(rest) == Size(m)
      decreases |rest|
    {
      var k :| k in rest.Keys;
      SizeWithout(rest, k);
      n := n + EntrySize(k, rest[k]);
      rest := rest - {k};
    }
    assert rest == map[];
  }

  // ---------------------------------------------------------------- derivations

  function Earlier(a: Option<int>, b: int): int { if a.Some? && a.value < b then a.value else b }

  function WithSession(c: Ctx, session: string, user: string): Ctx {
    c.(session := Some(SessionLayer(session, user)),
       compat := c.compat.(session := session, user := if user != "" then user else c.compat.user))
  }

  const SECRETS: set<string> := {"token", "password", "secret", "jwt"}

  function WithUser(c: Ctx, user: string, org: string, claims: map<string, string>): Ctx {
    c.(user := Some(UserLayer(user, org, map k | k in claims && k !in SECRETS :: claims[k])),
       compat := c.compat.(user := user))
  }

  function WithExecution(c: Ctx, id: string, timeout: int, priority: PriorityClass, now: int): Ctx {
    var asked := if timeout > 0 then Some(now + timeout) else None;
    var trace := if GetTraceID(c) == "" then "tr-" + id else GetTraceID(c);
    var budget := if c.request.Some? then c.request.value.budget else None;
    var metadata := if c.request.Some? then c.request.value.metadata else map[];
    c.(request := Some(RequestLayer(id, GetExecutionID(c), trace, asked, priority, budget, 1, metadata)),
       compat := c.compat.(trace := trace, execution := id),
       deadline := if asked.Some? then Some(Earlier(c.deadline, asked.value)) else c.deadline)
  }

  function WithChildExecution(c: Ctx, id: string, timeout: Option<int>, now: int): Ctx {
    var due := if timeout.Some? then Some(Earlier(c.deadline, now + timeout.value)) else c.deadline;
    var parent := Request(c);
    c.(request := Some(RequestLayer(id, GetExecutionID(c), GetTraceID(c), due, parent.priority, parent.budget, 1,
                                    parent.metadata)),
       compat := c.compat.(execution := id),
       deadline := due)
  }

  function WithAttempt(c: Ctx, n: int): Ctx {
    if c.request.None? then c else c.(request := Some(c.request.value.(attempt := n)))
  }

  ghost predicate Fits(c: Ctx, key: string, value: string) { Size(Request(c).metadata[key := value]) <= LIMIT }

  ghost function MetadataAdded(c: Ctx, key: string, value: string): Ctx {
    if Fits(c, key, value)
    then c.(request := Some(Request(c).(metadata := Request(c).metadata[key := value])))
    else c
  }

  // Accepts the entry exactly when the metadata with it stays within 4096 bytes; an entry under
  // the same key is replaced and no longer counts. A refused entry leaves the context as it is.
  method WithMetadata(c: Ctx, key: string, value: string) returns (r: Ctx, ok: bool)
    ensures ok == Fits(c, key, value) && r == MetadataAdded(c, key, value)
    ensures ok <==> Size(Request(c).metadata[key := value]) <= 4096
    ensures r == if !ok then c else
      c.(request := Some(Request(c).(metadata := Request(c).metadata[key := value])))
  {
    var metadata := Request(c).metadata;
    var current := MeasureMetadata(metadata);
    SizeWith(metadata, key, value);
    var added := |key| + |value|;
    if key in metadata {
      SizeWithout(metadata, key);
      current := current - (|key| + |metadata[key]|);
    }
    if current + added > LIMIT { return c, false; }
    return c.(request := Some(Request(c).(metadata := metadata[key := value]))), true;
  }

  function WithCostBudget(c: Ctx, budget: CostBudget): Ctx {
    c.(request := Some(Request(c).(budget := Some(budget))))
  }

  function WithSensitiveKey(c: Ctx, key: string): Ctx { c.(sensitive := c.sensitive + {key}) }

  ghost function WithSensitiveVariable(c: Ctx, key: string, text: string): Ctx {
    WithSensitiveKey(MetadataAdded(c, key, text), key)
  }

  // ---------------------------------------------------------------- sequences of derivations

  datatype Step =
    | Session(session: string, user: string)
    | User(user: string, org: string, claims: map<string, string>)
    | Execution(id: string, timeout: int, priority: PriorityClass, now: int)
    | Child(id: string, limit: Option<int>, now: int)
    | Attempt(n: int)
    | Metadata(key: string, value: string)
    | Budget(budget: CostBudget)
    | SensitiveKey(key: string)
    | SensitiveVariable(key: string, text: string)

  ghost function Derive(c: Ctx, s: Step): Ctx {
    match s
    case Session(sid, uid) => WithSession(c, sid, uid)
    case User(uid, org, claims) => WithUser(c, uid, org, claims)
    case Execution(id, timeout, p, now) => WithExecution(c, id, timeout, p, now)
    case Child(id, limit, now) => WithChildExecution(c, id, limit, now)
    case Attempt(n) => WithAttempt(c, n)
    case Metadata(k, v) => MetadataAdded(c, k, v)
    case Budget(b) => WithCostBudget(c, b)
    case SensitiveKey(k) => WithSensitiveKey(c, k)
    case SensitiveVariable(k, t) => WithSensitiveVariable(c, k, t)
  }

  ghost function DeriveAll(c: Ctx, steps: seq<Step>): Ctx
    decreases |steps|
  {
    if |steps| == 0 then c else DeriveAll(Derive(c, steps[0]), steps[1..])
  }

  ghost predicate Capped(c: Ctx) {
    Size(Request(c).metadata) <= LIMIT && (c.user.Some? ==> c.user.value.claims.Keys !! SECRETS)
  }

  // Nothing derived from a root without Merge carries more than 4096 bytes of metadata, and no
  // user layer carries a credential.
  lemma {:induction false} MetadataCapped(c: Ctx, steps: seq<Step>)
    requires Capped(c)
    ensures Capped(DeriveAll(c, steps))
    decreases |steps|
  {
    if |steps| > 0 { MetadataCapped(Derive(c, steps[0]), steps[1..]); }
  }

  lemma RootCapped(instance: string, version: string, steps: seq<Step>)
    ensures Capped(DeriveAll(NewRoot(instance, version), steps))
  {
    MetadataCapped(NewRoot(instance, version), steps);
  }

  // Every context derived from another shares its cost cell, unless a new budget is attached.
  lemma {:induction false} BudgetShared(c: Ctx, steps: seq<Step>)
    requires forall s :: s in steps ==> !s.Budget?
    ensures GetCostBudget(DeriveAll(c, steps)) == GetCostBudget(c)
    decreases |steps|
  {
    if |steps| > 0 {
      assert steps[0] in steps;
      BudgetShared(Derive(c, steps[0]), steps[1..]);
    }
  }

  // The enforced deadline never moves later.
  lemma {:induction false} DeadlineOnlyShrinks(c: Ctx, steps: seq<Step>)
    requires c.deadline.Some?
    ensures DeriveAll(c, steps).deadline.Some? && DeriveAll(c, steps).deadline.value <= c.deadline.value
    decreases |steps|
  {
    if |steps| > 0 { DeadlineOnlyShrinks(Derive(c, steps[0]), steps[1..]); }
  }

  // A child records the deadline that is enforced; an execution records the one it asked for,
  // which differs exactly when an earlier one is in force (or nothing was asked for).
  lemma RecordedDeadline(c: Ctx, id: string, timeout: int, limit: Option<int>, p: PriorityClass, now: int)
    ensures Request(WithChildExecution(c, id, limit, now)).deadline == WithChildExecution(c, id, limit, now).deadline
    ensures var e := WithExecution(c, id, timeout, p, now);
      Request(e).deadline == e.deadline <==>
        if timeout > 0 then c.deadline.None? || now + timeout <= c.deadline.value else c.deadline.None?
  {
  }

  // The deadline in force after a derivation: an execution with a positive timeout, or a child
  // with one of its own, asks for now plus that timeout, and the earlier of this and the one in
  // force applies; no other derivation changes it.
  lemma DeadlineInForce(c: Ctx, s: Step)
    ensures Derive(c, s).deadline ==
      if s.Execution? && s.timeout > 0 && (c.deadline.None? || s.now + s.timeout < c.deadline.value) then
        Some(s.now + s.timeout)
      else if s.Child? && s.limit.Some? && (c.deadline.None? || s.now + s.limit.value < c.deadline.value) then
        Some(s.now + s.limit.value)
      else c.deadline
  {
  }

  // A user layer carries all the given claims but "token", "password", "secret" and "jwt".
  lemma ClaimsFiltered(c: Ctx, user: string, org: string, claims: map<string, string>)
    ensures var u := WithUser(c, user, org, claims).user;
      && u.Some? && u.value.user == user && u.value.org == org
      && (forall k :: k in u.value.claims <==> k in claims && k !in {"token", "password", "secret", "jwt"})
      && (forall k :: k in u.value.claims ==> u.value.claims[k] == claims[k])
  {
  }

  // Who the user is: the user layer decides, without one the session layer, without either the
  // plain value. A session never hides a user layer.
  lemma UserShown(c: Ctx, user: string, org: string, claims: map<string, string>, session: string, sessionUser: string)
    ensures GetUserID(WithUser(c, user, org, claims)) == user
    ensures GetSessionID(WithSession(c, session, sessionUser)) == session
    ensures GetUserID(WithSession(c, session, sessionUser)) == if c.user.Some? then GetUserID(c) else sessionUser
    ensures c.user.None? && c.session.None? ==> GetUserID(c) == c.compat.user
  {
  }

  // What a new execution, a child and a new attempt take over from the context before: an
  // execution keeps a trace and invents one where there is none; a child inherits trace,
  // priority and budget; an attempt changes its number and nothing else.
  lemma Inherited(c: Ctx, id: string, timeout: int, limit: Option<int>, p: PriorityClass, now: int, n: int)
    ensures var e := WithExecution(c, id, timeout, p, now);
      && GetTraceID(e) == (if GetTraceID(c) != "" then GetTraceID(c) else "tr-" + id)
      && GetPriority(e) == p && GetCostBudget(e) == GetCostBudget(c)
    ensures var e := WithChildExecution(c, id, limit, now);
      && GetTraceID(e) == GetTraceID(c) && GetCostBudget(e) == GetCostBudget(c)
      && (c.request.Some? ==> GetPriority(e) == GetPriority(c))
    ensures c.request.None? ==> WithAttempt(c, n) == c
    ensures c.request.Some? ==> WithAttempt(c, n) == c.(request := Some(c.request.value.(attempt := n)))
    ensures c.request.Some? ==> GetAttemptNumber(WithAttempt(c, n)) == n
  {
  }

  // The trace of a context with a request layer survives every derivation once it is set.
  lemma {:induction false} TraceSurvives(c: Ctx, steps: seq<Step>)
    requires c.request.Some? && GetTraceID(c) != ""
    ensures GetTraceID(DeriveAll(c, steps)) == GetTraceID(c)
    decreases |steps|
  {
    if |steps| > 0 { TraceSurvives(Derive(c, steps[0]), steps[1..]); }
  }

  // Without a request layer the trace may come from a plain value. Exactly then a derivation
  // loses it by putting an empty request layer in front: an accepted metadata entry or a budget.
  lemma TraceLostIff(c: Ctx, s: Step)
    requires GetTraceID(c) != ""
    ensures GetTraceID(Derive(c, s)) != GetTraceID(c) <==>
      c.request.None? && (s.Budget? || (s.Metadata? && Fits(c, s.key, s.value))
        || (s.SensitiveVariable? && Fits(c, s.key, s.text)))
  {
  }

  // Every execution records its predecessor as parent and keeps its metadata.
  lemma ParentRecorded(c: Ctx, s: Step)
    requires s.Execution? || s.Child?
    ensures GetParentExecutionID(Derive(c, s)) == GetExecutionID(c) && GetExecutionID(Derive(c, s)) == s.id
    ensures GetAttemptNumber(Derive(c, s)) == 1 && Request(Derive(c, s)).metadata == Request(c).metadata
    ensures s.Execution? ==> GetTraceID(Derive(c, s)) != ""
  {
  }
}
