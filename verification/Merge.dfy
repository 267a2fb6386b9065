// Merging two contexts, core/context/context.go. The variables inside session stores are left out.

module Merge {
  import opened Option
  import opened Scheduler
  import opened Contexts

  datatype Strategy = OverlayWins | BaseWins | ErrorOnConflict

  datatype Conflict = CrossRuntime | OnUser | OnExecution | OnMetadata

  datatype Result<T> = Ok(value: T) | Err(error: Conflict)

  // ---------------------------------------------------------------- request layers

  function Pick(base: string, overlay: string): string { if overlay != "" then overlay else base }
  function PickSome<T>(base: Option<T>, overlay: Option<T>): Option<T> { if overlay.Some? then overlay else base }

  function FieldsOverlaid(b: RequestLayer, o: RequestLayer): RequestLayer {
    RequestLayer(
      Pick(b.execution, o.execution), Pick(b.parent, o.parent), Pick(b.trace, o.trace),
      PickSome(b.deadline, o.deadline),
      if o.priority != Custom("") then o.priority else b.priority,
      PickSome(b.budget, o.budget),
      if o.attempt > 0 then o.attempt else b.attempt,
      b.metadata)
  }

  function MetadataMerged(b: map<string, string>, o: map<string, string>, rule: Strategy): map<string, string> {
    if rule == BaseWins then o + b else b + o
  }

  // What mergeRequest makes of two request layers.
  function RequestsMerged(b: RequestLayer, o: RequestLayer, rule: Strategy): Result<RequestLayer> {
    if rule == ErrorOnConflict && o.execution != "" && o.execution != b.execution then Err(OnExecution)
    else if rule == ErrorOnConflict && !(b.metadata.Keys !! o.metadata.Keys) then Err(OnMetadata)
    else
      var fields := if rule == OverlayWins then FieldsOverlaid(b, o) else b;
      Ok(fields.(metadata := MetadataMerged(b.metadata, o.metadata, rule)))
  }

  method ApplyOverlayFields(merged: RequestLayer, o: RequestLayer) returns (r: RequestLayer)
    ensures r == FieldsOverlaid(merged, o)
  {
    r := merged;
    if o.execution != "" { r := r.(execution := o.execution); }
    if o.parent != "" { r := r.(parent := o.parent); }
    if o.trace != "" { r := r.(trace := o.trace); }
    if o.deadline.Some? { r := r.(deadline := o.deadline); }
    if o.priority != Custom("") { r := r.(priority := o.priority); }
    if o.budget.Some? { r := r.(budget := o.budget); }
    if o.attempt > 0 { r := r.(attempt := o.attempt); }
  }

  // The entries of m whose keys are not still to be visited.
  function Without(m: map<string, string>, keys: set<string>): map<string, string> {
    map k | k in m && k !in keys :: m[k]
  }

  lemma MergeStep(b: map<string, string>, o: map<string, string>, keys: set<string>, k: string, rule: Strategy)
    requires k in keys && keys <= o.Keys
    ensures var m := MetadataMerged(b, Without(o, keys), rule);
      && (k in m <==> k in b)
      && MetadataMerged(b, Without(o, keys - {k}), rule) == if k in b && rule == BaseWins then m else m[k := o[k]]
  {
  }

  lemma NothingMerged(b: map<string, string>, o: map<string, string>, rule: Strategy)
    ensures MetadataMerged(b, Without(o, o.Keys), rule) == b
  {
    assert Without(o, o.Keys) == map[];
  }

  method CopyEntries(b: map<string, string>) returns (r: map<string, string>)
    ensures r == b
  {
    r := map[];
    var keys := b.Keys;
    while keys != {}
      invariant keys <= b.Keys && r == Without(b, keys)
      decreases keys
    {
      var k :| k in keys;
      r, keys := r[k := b[k]], keys - {k};
    }
  }

  // The loops over both maps give one result for every order in which the keys are met.
  method MergeMetadata(b: map<string, string>, o: map<string, string>, rule: Strategy)
    returns (r: Result<map<string, string>>)
    ensures r == if rule == ErrorOnConflict && exists k :: k in b && k in o then Err(OnMetadata)
                 else Ok(MetadataMerged(b, o, rule))
  {
    hide MetadataMerged;
    var merged := CopyEntries(b);
    var keys := o.Keys;
    NothingMerged(b, o, rule);
    while keys != {}
      invariant keys <= o.Keys
      invariant rule == ErrorOnConflict ==> forall k :: k in o && k !in keys ==> k !in b
      invariant merged == MetadataMerged(b, Without(o, keys), rule)
      decreases keys
    {
      var k :| k in keys;
      MergeStep(b, o, keys, k, rule);
      if k in merged {
        match rule {
          case ErrorOnConflict => return Err(OnMetadata);
          case OverlayWins => merged := merged[k := o[k]];
          case BaseWins =>
        }
      } else {
        merged := merged[k := o[k]];
      }
      keys := keys - {k};
    }
    assert Without(o, keys) == o;
    return Ok(merged);
  }

  method MergeRequest(b: RequestLayer, o: RequestLayer, rule: Strategy) returns (r: Result<RequestLayer>)
    ensures r == RequestsMerged(b, o, rule)
  {
    var merged := b.(metadata := map[]);
    match rule {
      case ErrorOnConflict =>
        if o.execution != "" && o.execution != b.execution { return Err(OnExecution); }
      case OverlayWins => merged := ApplyOverlayFields(merged, o);
      case BaseWins =>
    }
    var m := MergeMetadata(b.metadata, o.metadata, rule);
    match m {
      case Err(e) => return Err(e);
      case Ok(metadata) => return Ok(merged.(metadata := metadata));
    }
  }

  // ---------------------------------------------------------------- contexts

  function SessionMerged(m: Ctx, b: Ctx, o: Ctx): Ctx {
    if o.session.Some? && b.session.None?
    then m.(session := o.session,
            compat := m.compat.(session := o.session.value.session, user := o.session.value.user))
    else m
  }

  function UserMerged(m: Ctx, b: Ctx, o: Ctx, rule: Strategy): Result<Ctx> {
    if o.user.None? then Ok(m)
    else if b.user.Some? && rule == ErrorOnConflict then Err(OnUser)
    else
      var u := if b.user.Some? && rule == BaseWins then b.user.value else o.user.value;
      Ok(m.(user := Some(u), compat := m.compat.(user := u.user)))
  }

  function RequestMergedInto(m: Ctx, b: Ctx, o: Ctx, rule: Strategy): Result<Ctx> {
    if o.request.None? then Ok(m) else
      var r := if b.request.None? then Ok(o.request.value) else RequestsMerged(b.request.value, o.request.value, rule);
      match r
      case Err(e) => Err(e)
      case Ok(q) => Ok(m.(request := Some(q), compat := m.compat.(trace := q.trace, execution := q.execution)))
  }

  predicate SameRuntime(b: Ctx, o: Ctx) {
    b.runtime.Some? && o.runtime.Some? ==> b.runtime.value.instance == o.runtime.value.instance
  }

  function Merged(b: Ctx, o: Ctx, rule: Strategy): Result<Ctx> {
    if !SameRuntime(b, o) then Err(CrossRuntime) else
      match UserMerged(SessionMerged(b, b, o), b, o, rule)
      case Err(e) => Err(e)
      case Ok(m) => RequestMergedInto(m, b, o, rule)
  }

  // ---------------------------------------------------------------- the monoid of request layers

  // Under OverlayWins the request layers form a monoid with the absent layer as identity.
  function Join(b: Option<RequestLayer>, o: Option<RequestLayer>): Option<RequestLayer> {
    if o.None? then b else if b.None? then o
    else Some(FieldsOverlaid(b.value, o.value).(metadata := b.value.metadata + o.value.metadata))
  }

  lemma JoinIsMerge(b: RequestLayer, o: RequestLayer)
    ensures RequestsMerged(b, o, OverlayWins) == Ok(Join(Some(b), Some(o)).value)
  {
  }

  lemma JoinMonoid(a: Option<RequestLayer>, b: Option<RequestLayer>, c: Option<RequestLayer>)
    ensures Join(Join(a, b), c) == Join(a, Join(b, c))
    ensures Join(None, a) == a == Join(a, None)
    ensures Join(a, a) == a
  {
    if a.Some? && b.Some? && c.Some? {
      var x, y, z := a.value.metadata, b.value.metadata, c.value.metadata;
      assert x + y + z == x + (y + z);
    }
    if a.Some? { assert a.value.metadata + a.value.metadata == a.value.metadata; }
  }

  // Under OverlayWins every field that the overlay sets is the overlay's, and every other one
  // the base's: an empty string, no deadline, no priority, no budget and an attempt number below
  // 1 are unset. So is the value of every metadata key. OverlayWins never fails.
  lemma OverlayPrevails(b: RequestLayer, o: RequestLayer)
    ensures RequestsMerged(b, o, OverlayWins).Ok?
    ensures var m := RequestsMerged(b, o, OverlayWins).value;
      && m.execution == (if o.execution != "" then o.execution else b.execution)
      && m.parent == (if o.parent != "" then o.parent else b.parent)
      && m.trace == (if o.trace != "" then o.trace else b.trace)
      && m.deadline == (if o.deadline.Some? then o.deadline else b.deadline)
      && m.priority == (if o.priority != Custom("") then o.priority else b.priority)
      && m.budget == (if o.budget.Some? then o.budget else b.budget)
      && m.attempt == (if o.attempt > 0 then o.attempt else b.attempt)
      && m.metadata.Keys == b.metadata.Keys + o.metadata.Keys
      && (forall k :: k in o.metadata ==> m.metadata[k] == o.metadata[k])
      && (forall k :: k in b.metadata && k !in o.metadata ==> m.metadata[k] == b.metadata[k])
  {
  }

  // Under the other two strategies, when they succeed, every field is the base's, and so is the
  // value of every metadata key the base has. BaseWins never fails.
  lemma BasePrevails(b: RequestLayer, o: RequestLayer, rule: Strategy)
    requires rule == BaseWins || (rule == ErrorOnConflict && RequestsMerged(b, o, rule).Ok?)
    ensures RequestsMerged(b, o, rule).Ok?
    ensures var m := RequestsMerged(b, o, rule).value;
      && m == b.(metadata := m.metadata)
      && m.metadata.Keys == b.metadata.Keys + o.metadata.Keys
      && (forall k :: k in b.metadata ==> m.metadata[k] == b.metadata[k])
      && (forall k :: k in o.metadata && k !in b.metadata ==> m.metadata[k] == o.metadata[k])
  {
  }

  // BaseWins merges the metadata as OverlayWins does with the arguments swapped, and keeps every
  // other field of the base.
  lemma BaseWinsSwaps(b: RequestLayer, o: RequestLayer)
    ensures RequestsMerged(b, o, BaseWins) == Ok(b.(metadata := RequestsMerged(o, b, OverlayWins).value.metadata))
  {
  }

  // ErrorOnConflict succeeds exactly when the overlay names no other execution and the metadata
  // keys are disjoint; then all strategies agree on the metadata.
  lemma NoConflictIff(b: RequestLayer, o: RequestLayer)
    ensures RequestsMerged(b, o, ErrorOnConflict).Ok? <==>
      (o.execution == "" || o.execution == b.execution) && forall k :: k in b.metadata ==> k !in o.metadata
    ensures RequestsMerged(b, o, ErrorOnConflict).Ok? ==>
      forall rule :: RequestsMerged(b, o, rule).value.metadata == RequestsMerged(b, o, ErrorOnConflict).value.metadata
  {
    if b.metadata.Keys !! o.metadata.Keys { assert b.metadata + o.metadata == o.metadata + b.metadata; }
  }

  // ---------------------------------------------------------------- whole contexts

  // What the accessors show of a context.
  datatype Shown = Shown(
    runtime: Option<RuntimeLayer>, session: string, user: string, userLayer: Option<UserLayer>,
    sessionLayer: Option<SessionLayer>,
    request: Option<RequestLayer>, trace: string, execution: string)

  function Show(c: Ctx): Shown {
    Shown(c.runtime, GetSessionID(c), GetUserID(c), c.user, c.session, c.request, GetTraceID(c), GetExecutionID(c))
  }

  lemma MergedShows(b: Ctx, o: Ctx)
    requires SameRuntime(b, o)
    ensures Merged(b, o, OverlayWins).Ok?
    ensures var m := Merged(b, o, OverlayWins).value;
      && m.runtime == b.runtime && m.session == PickSome(o.session, b.session) && m.user == PickSome(b.user, o.user)
      && m.request == Join(b.request, o.request) && m.sensitive == b.sensitive && m.deadline == b.deadline
      && (m.session.None? ==> m.compat.session == b.compat.session)
      && (m.session.None? && m.user.None? ==> m.compat.user == b.compat.user)
      && (m.request.None? ==> m.compat.trace == b.compat.trace && m.compat.execution == b.compat.execution)
  {
    if b.request.Some? && o.request.Some? { JoinIsMerge(b.request.value, o.request.value); }
  }

  // A merge of contexts, seen through the accessors: under OverlayWins the overlay's trace,
  // execution, parent, priority, budget, attempt and user are shown where it sets them, and the
  // base's where it does not; the session shown is the base's whenever the base has one.
  lemma OverlayShows(b: Ctx, o: Ctx)
    requires Merged(b, o, OverlayWins).Ok?
    ensures var m := Merged(b, o, OverlayWins).value;
      && (o.request.Some? ==>
            && (GetTraceID(o) != "" ==> GetTraceID(m) == GetTraceID(o))
            && (GetExecutionID(o) != "" ==> GetExecutionID(m) == GetExecutionID(o))
            && (GetParentExecutionID(o) != "" ==> GetParentExecutionID(m) == GetParentExecutionID(o))
            && (GetPriority(o) != Custom("") ==> GetPriority(m) == GetPriority(o))
            && (GetCostBudget(o).Some? ==> GetCostBudget(m) == GetCostBudget(o))
            && (GetAttemptNumber(o) > 0 ==> GetAttemptNumber(m) == GetAttemptNumber(o)))
      && (o.request.Some? && b.request.Some? ==>
            && (GetTraceID(o) == "" ==> GetTraceID(m) == GetTraceID(b))
            && (GetExecutionID(o) == "" ==> GetExecutionID(m) == GetExecutionID(b))
            && (GetParentExecutionID(o) == "" ==> GetParentExecutionID(m) == GetParentExecutionID(b))
            && (GetPriority(o) == Custom("") ==> GetPriority(m) == GetPriority(b))
            && (GetCostBudget(o).None? ==> GetCostBudget(m) == GetCostBudget(b))
            && (GetAttemptNumber(o) <= 0 ==> GetAttemptNumber(m) == GetAttemptNumber(b)))
      && (o.request.None? ==> m.request == b.request && GetTraceID(m) == GetTraceID(b))
      && (if o.user.Some? then m.user == o.user && GetUserID(m) == GetUserID(o) else m.user == b.user)
      && GetSessionID(m) == (if b.session.None? && o.session.Some? then GetSessionID(o) else GetSessionID(b))
  {
    hide FieldsOverlaid;
    if b.request.Some? && o.request.Some? { OverlayPrevails(b.request.value, o.request.value); }
  }

  // Under BaseWins the base's user and the base's request fields stay, and a layer the base does
  // not have is taken over. Under ErrorOnConflict two users are a conflict.
  lemma BaseShows(b: Ctx, o: Ctx)
    requires SameRuntime(b, o)
    ensures Merged(b, o, BaseWins).Ok?
    ensures var m := Merged(b, o, BaseWins).value;
      && m.user == (if b.user.Some? then b.user else o.user)
      && m.session == (if b.session.Some? then b.session else o.session)
      && (b.request.Some? ==> m.request == Some(b.request.value.(metadata := Request(m).metadata)))
      && (b.request.None? ==> m.request == o.request)
    ensures b.user.Some? && o.user.Some? ==> Merged(b, o, ErrorOnConflict) == Err(OnUser)
  {
  }

  function Both(b: Result<Ctx>, o: Result<Ctx>, rule: Strategy): Result<Ctx> {
    match b
    case Err(e) => Err(e)
    case Ok(x) => match o
      case Err(e) => Err(e)
      case Ok(y) => Merged(x, y, rule)
  }

  // The two groupings of three contexts.
  function LeftFirst(a: Ctx, b: Ctx, c: Ctx): Result<Ctx> { Both(Merged(a, b, OverlayWins), Ok(c), OverlayWins) }
  function RightFirst(a: Ctx, b: Ctx, c: Ctx): Result<Ctx> { Both(Ok(a), Merged(b, c, OverlayWins), OverlayWins) }

  // Two merges give the same error, or contexts that no accessor tells apart.
  predicate Agree(l: Result<Ctx>, r: Result<Ctx>) {
    if l.Ok? then r.Ok? && Show(l.value) == Show(r.value) else r.Err? && l.error == r.error
  }

  // Under OverlayWins the grouping of three contexts makes no difference, errors included,
  // exactly when the runtime guard cannot tell the two groupings apart: if the first two
  // contexts pass it, the third passes it against the one exactly when against the other.
  lemma MergeAssociativeIff(a: Ctx, b: Ctx, c: Ctx)
    ensures Agree(LeftFirst(a, b, c), RightFirst(a, b, c))
       <==> (SameRuntime(a, b) ==> (SameRuntime(a, c) <==> SameRuntime(b, c)))
  {
    hide Merged, FieldsOverlaid;
    CrossRuntimeRejected(a, b);
    CrossRuntimeRejected(b, c);
    if SameRuntime(a, b) {
      MergedShows(a, b);
      CrossRuntimeRejected(Merged(a, b, OverlayWins).value, c);
    }
    if SameRuntime(b, c) {
      MergedShows(b, c);
      CrossRuntimeRejected(a, Merged(b, c, OverlayWins).value);
    }
    if SameRuntime(a, b) && SameRuntime(b, c) && SameRuntime(a, c) {
      MergedShows(Merged(a, b, OverlayWins).value, c);
      MergedShows(a, Merged(b, c, OverlayWins).value);
      JoinMonoid(a.request, b.request, c.request);
    }
  }

  // With a runtime layer in each context the condition always holds.
  lemma RuntimesEverywhere(a: Ctx, b: Ctx, c: Ctx)
    requires a.runtime.Some? && b.runtime.Some? && c.runtime.Some?
    ensures Agree(LeftFirst(a, b, c), RightFirst(a, b, c))
  {
    MergeAssociativeIff(a, b, c);
  }

  lemma CrossRuntimeRejected(b: Ctx, o: Ctx)
    ensures Merged(b, o, OverlayWins).Err? <==> !SameRuntime(b, o)
    ensures !SameRuntime(b, o) ==> Merged(b, o, OverlayWins) == Err(CrossRuntime)
  {
    if SameRuntime(b, o) { MergedShows(b, o); }
  }

  // Without a runtime layer on the left, only the right grouping compares the other two.
  lemma LeftMissingWitness() returns (a: Ctx, b: Ctx, c: Ctx)
    ensures LeftFirst(a, b, c).Ok?
    ensures RightFirst(a, b, c) == Err(CrossRuntime)
  {
    a, b, c := NewRoot("", "").(runtime := None), NewRoot("x", ""), NewRoot("y", "");
  }

  // Without one in the middle, only the left grouping compares the outer two.
  lemma MiddleMissingWitness() returns (a: Ctx, b: Ctx, c: Ctx)
    ensures LeftFirst(a, b, c) == Err(CrossRuntime)
    ensures RightFirst(a, b, c).Ok?
  {
    a, b, c := NewRoot("x", ""), NewRoot("", "").(runtime := None), NewRoot("y", "");
  }

  // ---------------------------------------------------------------- the metadata cap

  lemma {:induction false} SizeOfDisjoint(a: map<string, string>, b: map<string, string>)
    requires a.Keys !! b.Keys
    ensures Size(a + b) == Size(a) + Size(b)
    decreases |b|
  {
    hide Size;
    if b == map[] {
      assert a + b == a;
    } else {
      var k :| k in b;
      SizeWithout(b, k);
      SizeOfDisjoint(a, b - {k});
      SizeWith(a + (b - {k}), k, b[k]);
      UnionStep(a, b, k);
    }
    NoEntries();
  }

  lemma NoEntries()
    ensures Size(map[]) == 0
  {
  }

  lemma UnionStep(a: map<string, string>, b: map<string, string>, k: string)
    requires k in b
    ensures (a + (b - {k}))[k := b[k]] == a + b
  {
  }

  // A union holds the winner, and the loser's entries under other keys.
  lemma SizeOfUnion(a: map<string, string>, b: map<string, string>)
    ensures Size(a + b) == Size(a - b.Keys) + Size(b)
    ensures Size(a - b.Keys) <= Size(a)
  {
    assert (a - b.Keys) + b == a + b;
    SizeOfDisjoint(a - b.Keys, b);
    SizeOfPart(a - b.Keys, a);
  }

  // The metadata bytes a successful merge will hold, from the two contexts before it.
  ghost function MergedSize(b: map<string, string>, o: map<string, string>, rule: Strategy): nat {
    match rule
    case OverlayWins => Size(b - o.Keys) + Size(o)
    case BaseWins => Size(o - b.Keys) + Size(b)
    case ErrorOnConflict => Size(b) + Size(o)
  }

  // Merge does not enforce the cap. Per strategy, the result stays within 4096 bytes exactly
  // when the winner's metadata and the loser's other entries (under ErrorOnConflict, both
  // metadata) together do.
  lemma MergeWithinCapIff(b: Ctx, o: Ctx, rule: Strategy)
    requires Merged(b, o, rule).Ok?
    ensures Size(Request(Merged(b, o, rule).value).metadata) <= LIMIT
       <==> MergedSize(Request(b).metadata, Request(o).metadata, rule) <= LIMIT
    ensures MergedSize(Request(b).metadata, Request(o).metadata, rule)
         <= Size(Request(b).metadata) + Size(Request(o).metadata)
  {
    hide Size, UserMerged, SessionMerged;
    var x, y := Request(b).metadata, Request(o).metadata;
    SizeOfUnion(x, y);
    SizeOfUnion(y, x);
    NoEntries();
    var none: map<string, string> := map[];
    assert x - none.Keys == x && none - x.Keys == none && y - none.Keys == y && none - y.Keys == none;
    if b.request.Some? && o.request.Some? && rule == ErrorOnConflict { SizeOfDisjoint(x, y); }
    MergedRequest(b, o, rule);
  }

  lemma MergedRequest(b: Ctx, o: Ctx, rule: Strategy)
    requires Merged(b, o, rule).Ok?
    ensures var x, y := Request(b).metadata, Request(o).metadata;
      && Request(Merged(b, o, rule).value).metadata
         == (if o.request.None? then x else if b.request.None? then y else MetadataMerged(x, y, rule))
      && (b.request.Some? && o.request.Some? && rule == ErrorOnConflict ==> x.Keys !! y.Keys)
  {
  }

  lemma MergeExceedsCap(rule: Strategy) returns (b: RequestLayer, o: RequestLayer)
    ensures Size(b.metadata) == LIMIT == Size(o.metadata)
    ensures RequestsMerged(b, o, rule).Ok? && Size(RequestsMerged(b, o, rule).value.metadata) == 2 * LIMIT
  {
    var v := seq(LIMIT - 1, i => 'v');
    var x, y: map<string, string> := map["x" := v], map["y" := v];
    b, o := NO_REQUEST.(metadata := x), NO_REQUEST.(metadata := y);
    SizeWith(map[], "x", v);
    SizeWith(map[], "y", v);
    assert map[]["x" := v] == x && map[]["y" := v] == y;
    SizeWith(x, "y", v);
    assert x["y" := v] == x + y == y + x;
  }
}
