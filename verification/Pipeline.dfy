// The middleware pipeline of core/middleware/pipeline.go and the stages it is built from.

module Pipeline {
  import opened Option
  import opened Scheduler
  import opened Contexts

  datatype Request = Request(id: string, priority: PriorityClass, metadata: map<string, string>)

  datatype Category = Auth | Saturation

  datatype Reply =
    | Refused(id: string, category: Category, message: string, retryable: bool)
    | Answered(text: string)
    | Failed(error: string)

  // What a call gives back, and the contexts with which the core handler was called.
  datatype Outcome = Outcome(reply: Reply, reached: seq<Ctx>)

  type Handler = (Ctx, Request) -> Outcome

  datatype Identity = Identity(user: string, org: string, claims: map<string, string>)

  // The repository's stages, with the decisions that depend on state elsewhere as parameters,
  // and any other one.
  datatype Stage =
    | Authentication(verifier: string -> Option<Identity>)
    | Authorization
    | RateLimiting(admits: (Ctx, Request) -> bool)
    | CostGuard(reserves: (Ctx, Request) -> bool)
    | Caching(cached: (Ctx, Request) -> Option<Reply>)
    | Logging
    | Telemetry
    | Other(needs: seq<string>, offers: seq<string>, handle: (Ctx, Request, Handler) -> Outcome)

  function Dependencies(s: Stage): seq<string> {
    match s
    case Authentication(_) => []
    case Authorization => ["authenticated"]
    case RateLimiting(_) => ["authenticated"]
    case CostGuard(_) => ["authenticated"]
    case Caching(_) => ["authorized"]
    case Logging => []
    case Telemetry => []
    case Other(d, _, _) => d
  }

  function Provides(s: Stage): seq<string> {
    match s
    case Authentication(_) => ["authenticated"]
    case Authorization => ["authorized"]
    case RateLimiting(_) => ["rate_limit_checked"]
    case CostGuard(_) => ["budget_reserved"]
    case Caching(_) => ["cache_checked"]
    case Logging => []
    case Telemetry => []
    case Other(_, p, _) => p
  }

  // Go's map lookup: a missing key reads as the empty string.
  function Lookup(m: map<string, string>, k: string): string { if k in m then m[k] else "" }

  function Token(r: Request): string {
    if Lookup(r.metadata, "auth-token") != "" then Lookup(r.metadata, "auth-token")
    else Lookup(r.metadata, "Authorization")
  }

  function Handle(s: Stage, c: Ctx, r: Request, next: Handler): Outcome {
    match s
    case Authentication(verifier) =>
      if Token(r) == "" then Outcome(Refused(r.id, Auth, "missing authentication token", false), [])
      else (match verifier(Token(r))
        case None => Outcome(Refused(r.id, Auth, "authentication failed", false), [])
        case Some(i) => next(WithUser(c, i.user, i.org, i.claims), r))
    case Authorization =>
      if c.user.None? || c.user.value.user == "" then
        Outcome(Refused(r.id, Auth, "unauthorized: user identity not found", false), [])
      else if r.priority == Critical && Lookup(c.user.value.claims, "role") != "admin" then
        Outcome(Refused(r.id, Auth, "unauthorized: critical priority class requires admin privileges", false), [])
      else next(c, r)
    case RateLimiting(admits) =>
      if GetUserID(c) == "" || admits(c, r) then next(c, r)
      else Outcome(Refused(r.id, Saturation, "rate limit exceeded", true), [])
    case CostGuard(reserves) =>
      if GetCostBudget(c).None? || reserves(c, r) then next(c, r)
      else Outcome(Refused(r.id, Saturation, "cost budget exceeded", false), [])
    case Caching(cached) =>
      if cached(c, r).Some? then Outcome(cached(c, r).value, []) else next(c, r)
    case Logging => next(c, r)
    case Telemetry => next(c, r)
    case Other(_, _, handle) => handle(c, r, next)
  }

  // ---------------------------------------------------------------- validation

  // The capabilities a list provides, in order and with repetitions.
  function Capabilities(stages: seq<Stage>): seq<string> {
    if stages == [] then [] else Capabilities(stages[..|stages| - 1]) + Provides(stages[|stages| - 1])
  }

  ghost predicate Distinct(s: seq<string>) { forall i, j :: 0 <= i < j < |s| ==> s[i] != s[j] }

  // Some stage before position i provides the capability.
  ghost predicate ProvidedBefore(stages: seq<Stage>, i: nat, capability: string) {
    exists j :: 0 <= j < i && j < |stages| && capability in Provides(stages[j])
  }

  ghost predicate DependenciesMet(stages: seq<Stage>, i: nat)
    requires i < |stages|
  {
    forall d :: d in Dependencies(stages[i]) ==> ProvidedBefore(stages, i, d)
  }

  // Every dependency is provided by a strictly earlier stage, and no capability twice.
  ghost predicate WellOrdered(stages: seq<Stage>) {
    (forall i :: 0 <= i < |stages| ==> DependenciesMet(stages, i)) && Distinct(Capabilities(stages))
  }

  lemma {:induction false} CapabilitiesMeaning(stages: seq<Stage>, capability: string)
    ensures capability in Capabilities(stages) <==> ProvidedBefore(stages, |stages|, capability)
  {
    if stages != [] {
      var front := stages[..|stages| - 1];
      CapabilitiesMeaning(front, capability);
      if capability in Provides(stages[|stages| - 1]) { assert ProvidedBefore(stages, |stages|, capability); }
      if ProvidedBefore(front, |front|, capability) {
        var j :| 0 <= j < |front| && capability in Provides(front[j]);
        assert stages[j] == front[j];
      }
    }
  }

  datatype Verdict = Valid | Unsatisfied(at: nat, capability: string) | Duplicate(at: nat, capability: string)

  // Capability p is offered although it was before, by an earlier stage or by the same one.
  ghost predicate OffersAgain(before: seq<string>, offered: seq<string>, p: string) {
    exists k :: 0 <= k < |offered| && offered[k] == p && p in before + offered[..k]
  }

  lemma OfferedAgain(before: seq<string>, offered: seq<string>, p: string)
    requires OffersAgain(before, offered, p)
    ensures !Distinct(before + offered)
  {
    var k :| 0 <= k < |offered| && offered[k] == p && p in before + offered[..k];
    assert before + offered == before + offered[..k] + [p] + offered[k + 1..];
    Repeated(before + offered[..k], p, offered[k + 1..]);
  }

  // A refusal names the first stage at fault: all before it are well ordered.
  ghost predicate Explains(stages: seq<Stage>, v: Verdict) {
    match v
    case Valid => WellOrdered(stages)
    case Unsatisfied(i, d) =>
      i < |stages| && WellOrdered(stages[..i]) && d in Dependencies(stages[i]) && !ProvidedBefore(stages, i, d)
    case Duplicate(i, p) =>
      i < |stages| && WellOrdered(stages[..i]) && DependenciesMet(stages, i)
      && OffersAgain(Capabilities(stages[..i]), Provides(stages[i]), p)
  }

  // A refused list is not well ordered, so Validate succeeds exactly for well-ordered lists.
  lemma ExplainedRefusal(stages: seq<Stage>, v: Verdict)
    requires Explains(stages, v)
    ensures v.Valid? <==> WellOrdered(stages)
  {
    if v.Unsatisfied? {
      assert !DependenciesMet(stages, v.at);
    } else if v.Duplicate? {
      var part := stages[..v.at + 1];
      assert part[..v.at] == stages[..v.at];
      CapabilitiesPrefix(stages, v.at + 1);
      OfferedAgain(Capabilities(stages[..v.at]), Provides(stages[v.at]), v.capability);
    }
  }

  lemma {:induction false} CapabilitiesPrefix(stages: seq<Stage>, i: nat)
    requires i <= |stages|
    ensures Capabilities(stages[..i]) <= Capabilities(stages)
    decreases |stages| - i
  {
    if i < |stages| {
      CapabilitiesPrefix(stages, i + 1);
      assert stages[..i + 1][..i] == stages[..i];
    } else {
      assert stages[..i] == stages;
    }
  }

  lemma WellOrderedGrows(stages: seq<Stage>, i: nat)
    requires i < |stages| && WellOrdered(stages[..i]) && DependenciesMet(stages, i)
    requires Distinct(Capabilities(stages[..i]) + Provides(stages[i]))
    ensures WellOrdered(stages[..i + 1])
  {
    var part := stages[..i + 1];
    assert part[..i] == stages[..i];
    forall k | 0 <= k < |part| ensures DependenciesMet(part, k) {
      forall d | d in Dependencies(part[k]) ensures ProvidedBefore(part, k, d) {
        if k < i {
          assert DependenciesMet(stages[..i], k) && ProvidedBefore(stages[..i], k, d);
          var j :| 0 <= j < k && d in Provides(stages[..i][j]);
          assert part[j] == stages[..i][j];
        } else {
          var j :| 0 <= j < i && d in Provides(stages[j]);
          assert part[j] == stages[j];
        }
      }
    }
  }

  // ---------------------------------------------------------------- composition

  // One stage in front of a handler.
  function Link(s: Stage, next: Handler): Handler { (c, r) => Handle(s, c, r, next) }

  function Chain(stages: seq<Stage>, core: Handler): Handler {
    if stages == [] then core else Link(stages[0], Chain(stages[1..], core))
  }

  class Pipeline {
    var middlewares: seq<Stage>

    constructor (stages: seq<Stage>)
      ensures middlewares == stages
    {
      middlewares := stages;
    }

    method Register(s: Stage)
      modifies this
      ensures middlewares == old(middlewares) + [s]
    {
      middlewares := middlewares + [s];
    }

    method Validate() returns (v: Verdict)
      ensures v.Valid? <==> WellOrdered(middlewares)
      ensures Explains(middlewares, v)
    {
      var provided: set<string> := {};
      var i := 0;
      while i < |middlewares|
        invariant 0 <= i <= |middlewares| && WellOrdered(middlewares[..i])
        invariant forall p :: p in provided <==> p in Capabilities(middlewares[..i])
      {
        var missing := FirstMissing(i, provided);
        if missing.Some? {
          v := Unsatisfied(i, missing.value);
          ExplainedRefusal(middlewares, v);
          return;
        }
        var twice: Option<string>;
        twice, provided := Provide(i, provided);
        if twice.Some? {
          v := Duplicate(i, twice.value);
          ExplainedRefusal(middlewares, v);
          return;
        }
        WellOrderedGrows(middlewares, i);
        assert middlewares[..i + 1][..i] == middlewares[..i];
        i := i + 1;
      }
      assert middlewares[..i] == middlewares;
      return Valid;
    }

    method FirstMissing(i: nat, provided: set<string>) returns (missing: Option<string>)
      requires i < |middlewares|
      requires forall p :: p in provided <==> p in Capabilities(middlewares[..i])
      ensures missing.None? <==> DependenciesMet(middlewares, i)
      ensures missing.Some? ==>
        missing.value in Dependencies(middlewares[i]) && !ProvidedBefore(middlewares, i, missing.value)
    {
      forall d ensures d in provided <==> ProvidedBefore(middlewares, i, d) {
        CapabilitiesMeaning(middlewares[..i], d);
      }
      var deps := Dependencies(middlewares[i]);
      var k := 0;
      while k < |deps|
        invariant 0 <= k <= |deps| && forall h :: 0 <= h < k ==> deps[h] in provided
      {
        if deps[k] !in provided { return Some(deps[k]); }
        k := k + 1;
      }
      return None;
    }

    method Provide(i: nat, provided: set<string>) returns (twice: Option<string>, all: set<string>)
      requires i < |middlewares| && Distinct(Capabilities(middlewares[..i]))
      requires forall p :: p in provided <==> p in Capabilities(middlewares[..i])
      ensures twice.None? <==> Distinct(Capabilities(middlewares[..i]) + Provides(middlewares[i]))
      ensures twice.Some? ==> OffersAgain(Capabilities(middlewares[..i]), Provides(middlewares[i]), twice.value)
      ensures twice.None? ==> forall p :: p in all <==> p in Capabilities(middlewares[..i]) + Provides(middlewares[i])
    {
      ghost var before := Capabilities(middlewares[..i]);
      var provs := Provides(middlewares[i]);
      all := provided;
      var k := 0;
      while k < |provs|
        invariant 0 <= k <= |provs| && Distinct(before + provs[..k])
        invariant forall p :: p in all <==> p in before + provs[..k]
      {
        assert before + provs[..k + 1] == before + provs[..k] + [provs[k]];
        if provs[k] in all {
          OfferedAgain(before, provs, provs[k]);
          return Some(provs[k]), all;
        }
        all := all + {provs[k]};
        k := k + 1;
      }
      assert provs[..k] == provs;
      return None, all;
    }

    // The backward loop composes the stages so that they run in list order.
    method Wrap(core: Handler) returns (handler: Handler)
      ensures handler == Chain(middlewares, core)
    {
      handler := core;
      var i := |middlewares|;
      while i > 0
        invariant 0 <= i <= |middlewares| && handler == Chain(middlewares[i..], core)
      {
        i := i - 1;
        assert middlewares[i..][1..] == middlewares[i + 1..];
        handler := Link(middlewares[i], handler);
      }
      assert middlewares[0..] == middlewares;
    }
  }

  lemma Repeated(a: seq<string>, x: string, b: seq<string>)
    requires x in a
    ensures !Distinct(a + [x] + b)
  {
    var k :| 0 <= k < |a| && a[k] == x;
    var s := a + [x] + b;
    assert s[k] == s[|a|];
  }

  // ---------------------------------------------------------------- the guarantee

  predicate Own(s: Stage) { !s.Other? }

  datatype Decision = Stop(reply: Reply) | Pass(ctx: Ctx)

  // Whether a stage of the repository lets a request through to what follows it.
  predicate Admits(s: Stage, c: Ctx, r: Request) {
    match s
    case Authentication(verifier) => Token(r) != "" && verifier(Token(r)).Some?
    case Authorization =>
      c.user.Some? && c.user.value.user != ""
        && (r.priority == Critical ==> Lookup(c.user.value.claims, "role") == "admin")
    case RateLimiting(admits) => GetUserID(c) == "" || admits(c, r)
    case CostGuard(reserves) => GetCostBudget(c).None? || reserves(c, r)
    case Caching(cached) => cached(c, r).None?
    case _ => true
  }

  // The context that what follows the stage sees.
  function Derived(s: Stage, c: Ctx, r: Request): Ctx {
    if s.Authentication? && Admits(s, c, r)
    then var i := s.verifier(Token(r)).value; WithUser(c, i.user, i.org, i.claims)
    else c
  }

  // The stages in list order: each either stops the request or passes a context on.
  ghost predicate Reaches(stages: seq<Stage>, c: Ctx, r: Request, d: Ctx) {
    if stages == [] then d == c
    else Admits(stages[0], c, r) && Reaches(stages[1..], Derived(stages[0], c, r), r, d)
  }

  function CoreOf(f: (Ctx, Request) -> Reply): Handler { (c, r) => Outcome(f(c, r), [c]) }

  // The chained handler calls the core exactly when every stage admits the request as it stands
  // there, once, with the derived context, and then returns the core's reply.
  lemma {:induction false} ChainReaches(stages: seq<Stage>, f: (Ctx, Request) -> Reply, c: Ctx, r: Request)
    requires forall s :: s in stages ==> Own(s)
    ensures var o := Chain(stages, CoreOf(f))(c, r);
      if o.reached == [] then forall d :: !Reaches(stages, c, r, d)
      else
        && |o.reached| == 1 && o.reply == f(o.reached[0], r)
        && forall d :: Reaches(stages, c, r, d) <==> d == o.reached[0]
  {
    if stages != [] {
      assert stages[0] in stages;
      ChainReaches(stages[1..], f, Derived(stages[0], c, r), r);
      var next := Chain(stages[1..], CoreOf(f));
      assert Chain(stages, CoreOf(f))(c, r) == Handle(stages[0], c, r, next);
      assert Admits(stages[0], c, r) ==> Handle(stages[0], c, r, next) == next(Derived(stages[0], c, r), r);
    }
  }

  // In a validated list of the repository's stages, whatever precedes the first Authentication
  // only logs or counts.
  lemma OnlyObserversFirst(stages: seq<Stage>, k: nat)
    requires WellOrdered(stages) && (forall s :: s in stages ==> Own(s)) && k < |stages|
    requires forall j :: 0 <= j < k ==> !stages[j].Authentication?
    ensures stages[k].Authentication? || stages[k].Logging? || stages[k].Telemetry?
    decreases k
  {
    assert DependenciesMet(stages, k);
    assert stages[k] in stages;
    if Dependencies(stages[k]) != [] {
      var d := Dependencies(stages[k])[0];
      assert d in Dependencies(stages[k]) && ProvidedBefore(stages, k, d);
      var j :| 0 <= j < k && d in Provides(stages[j]);
      OnlyObserversFirst(stages, j);
      assert false;
    }
  }

  lemma SkipOne(stages: seq<Stage>, c: Ctx, r: Request, d: Ctx)
    requires stages != [] && (stages[0].Logging? || stages[0].Telemetry?)
    ensures Reaches(stages, c, r, d) <==> Reaches(stages[1..], c, r, d)
  {
  }

  lemma {:induction false} SkipObservers(stages: seq<Stage>, a: nat, c: Ctx, r: Request, d: Ctx)
    requires a <= |stages| && forall j :: 0 <= j < a ==> stages[j].Logging? || stages[j].Telemetry?
    ensures Reaches(stages, c, r, d) <==> Reaches(stages[a..], c, r, d)
    decreases a
  {
    hide Reaches;
    if a == 0 {
      assert stages[a..] == stages;
    } else {
      SkipObservers(stages, a - 1, c, r, d);
      SkipOne(stages[a - 1..], c, r, d);
      assert stages[a - 1..][1..] == stages[a..];
    }
  }

  lemma {:induction false} SameContext(stages: seq<Stage>, c: Ctx, r: Request, d: Ctx)
    requires forall s :: s in stages ==> !s.Authentication?
    ensures Reaches(stages, c, r, d) <==> d == c && forall s :: s in stages ==> Admits(s, c, r)
  {
    if stages != [] {
      assert stages[0] in stages;
      SameContext(stages[1..], c, r, d);
      assert forall s :: s in stages <==> s == stages[0] || s in stages[1..];
    }
  }

  lemma CapabilitiesStep(stages: seq<Stage>, b: nat)
    requires b < |stages|
    ensures Capabilities(stages[..b + 1]) == Capabilities(stages[..b]) + Provides(stages[b])
  {
    assert stages[..b + 1][..b] == stages[..b];
  }

  lemma ProviderListed(stages: seq<Stage>, a: nat, x: string)
    requires a < |stages| && x in Provides(stages[a])
    ensures x in Capabilities(stages)
  {
    assert ProvidedBefore(stages, |stages|, x);
    CapabilitiesMeaning(stages, x);
  }

  lemma TwoProviders(stages: seq<Stage>, a: nat, b: nat, x: string)
    requires a < b < |stages| && x in Provides(stages[a]) && Provides(stages[b]) == [x]
    ensures !Distinct(Capabilities(stages))
  {
    hide Capabilities, Provides, Dependencies;
    ProviderListed(stages[..b], a, x);
    CapabilitiesStep(stages, b);
    var before := Capabilities(stages[..b]);
    Repeated(before, x, []);
    assert before + [x] + [] == Capabilities(stages[..b + 1]);
    CapabilitiesPrefix(stages, b + 1);
  }

  lemma OneAuthentication(stages: seq<Stage>, a: nat, b: nat)
    requires WellOrdered(stages) && a < b < |stages| && stages[a].Authentication?
    ensures !stages[b].Authentication?
  {
    if stages[b].Authentication? { TwoProviders(stages, a, b, "authenticated"); }
  }

  // The verifier accepted a token of the request for a non-empty user, who is an admin when the
  // request is Critical.
  predicate Entitled(verifier: string -> Option<Identity>, r: Request) {
    && Token(r) != "" && verifier(Token(r)).Some?
    && var i := verifier(Token(r)).value;
      i.user != "" && (r.priority == Critical ==> Lookup(i.claims, "role") == "admin")
  }

  // The token is the metadata entry "auth-token", or, if that is missing or empty, the entry
  // "Authorization"; and what it takes to be entitled, spelled out.
  lemma EntitledIff(verifier: string -> Option<Identity>, r: Request)
    ensures Token(r) != "" <==>
      ("auth-token" in r.metadata && r.metadata["auth-token"] != "")
      || ("Authorization" in r.metadata && r.metadata["Authorization"] != "")
    ensures "auth-token" in r.metadata && r.metadata["auth-token"] != "" ==> Token(r) == r.metadata["auth-token"]
    ensures !("auth-token" in r.metadata && r.metadata["auth-token"] != "") && "Authorization" in r.metadata ==>
      Token(r) == r.metadata["Authorization"]
    ensures Entitled(verifier, r) <==>
      && Token(r) != ""
      && match verifier(Token(r))
         case None => false
         case Some(Identity(user, org, claims)) =>
           user != "" && (r.priority == Critical ==> "role" in claims && claims["role"] == "admin")
  {
  }

  // What each other gate lets through on its own: rate limiting everything without a user ID and
  // otherwise what its bucket admits, the cost guard everything without a budget and otherwise
  // what fits it, the cache what it has no answer for; and observers everything.
  lemma GatesAlone(f: (Ctx, Request) -> Reply, admits: (Ctx, Request) -> bool, cached: (Ctx, Request) -> Option<Reply>,
                   c: Ctx, r: Request)
    ensures var core := CoreOf(f);
      && Link(RateLimiting(admits), core)(c, r) == (if GetUserID(c) == "" || admits(c, r) then Outcome(f(c, r), [c])
           else Outcome(Refused(r.id, Saturation, "rate limit exceeded", true), []))
      && Link(CostGuard(admits), core)(c, r) == (if GetCostBudget(c) == None || admits(c, r) then Outcome(f(c, r), [c])
           else Outcome(Refused(r.id, Saturation, "cost budget exceeded", false), []))
      && Link(Caching(cached), core)(c, r) == (match cached(c, r)
           case Some(answer) => Outcome(answer, []) case None => Outcome(f(c, r), [c]))
      && Link(Logging, core)(c, r) == Outcome(f(c, r), [c]) == Link(Telemetry, core)(c, r)
  {
  }

  // In every validated list of the repository's stages that contains Authorization there is one
  // Authentication, and the core is reached exactly when its verifier entitles the request and
  // every other gate admits it, each seeing the authenticated user; the core sees that user too.
  lemma PipelineSound(stages: seq<Stage>, c: Ctx, r: Request) returns (a: nat)
    requires WellOrdered(stages) && (forall s :: s in stages ==> Own(s)) && Authorization in stages
    ensures a < |stages| && stages[a].Authentication?
    ensures var d := Derived(stages[a], c, r); forall e :: Reaches(stages, c, r, e) <==>
      e == d && Entitled(stages[a].verifier, r)
      && forall s :: s in stages && !s.Authentication? && !s.Authorization? ==> Admits(s, d, r)
  {
    a := 0;
    while a < |stages| && !stages[a].Authentication?
      invariant 0 <= a <= |stages| && forall j :: 0 <= j < a ==> !stages[j].Authentication?
      invariant forall j :: 0 <= j < a ==> stages[j].Logging? || stages[j].Telemetry?
    {
      OnlyObserversFirst(stages, a);
      a := a + 1;
    }
    var d := Derived(stages[a], c, r);
    forall b | a < b < |stages| ensures !stages[b].Authentication? { OneAuthentication(stages, a, b); }
    forall e ensures Reaches(stages, c, r, e) <==>
      Admits(stages[a], c, r) && e == d && forall s :: s in stages[a + 1..] ==> Admits(s, d, r)
    {
      SkipObservers(stages, a, c, r, e);
      assert stages[a..][1..] == stages[a + 1..];
      SameContext(stages[a + 1..], d, r, e);
    }
    GatesAfter(stages, a, d, r);
  }

  lemma GatesAfter(stages: seq<Stage>, a: nat, d: Ctx, r: Request)
    requires a < |stages| && stages[a].Authentication? && Authorization in stages
    requires forall j :: 0 <= j < a ==> stages[j].Logging? || stages[j].Telemetry?
    requires forall b :: a < b < |stages| ==> !stages[b].Authentication?
    ensures (forall s :: s in stages[a + 1..] ==> Admits(s, d, r)) <==>
      Admits(Authorization, d, r)
      && forall s :: s in stages && !s.Authentication? && !s.Authorization? ==> Admits(s, d, r)
  {
    var rest := stages[a + 1..];
    var k :| 0 <= k < |stages| && stages[k].Authorization?;
    assert rest[k - a - 1] == Authorization;
    forall s | s in stages ensures s in rest || s.Authentication? || s.Logging? || s.Telemetry? {
      var j :| 0 <= j < |stages| && stages[j] == s;
      if j > a { assert rest[j - a - 1] == s; }
    }
    forall s | s in rest ensures s in stages && !s.Authentication? {
      var j :| 0 <= j < |rest| && rest[j] == s;
      assert stages[j + a + 1] == s;
    }
  }

  // The same for the wrapped handler itself.
  lemma WrappedSound(stages: seq<Stage>, f: (Ctx, Request) -> Reply, c: Ctx, r: Request) returns (a: nat)
    requires WellOrdered(stages) && (forall s :: s in stages ==> Own(s)) && Authorization in stages
    requires Chain(stages, CoreOf(f))(c, r).reached != []
    ensures a < |stages| && stages[a].Authentication? && Entitled(stages[a].verifier, r)
    ensures Chain(stages, CoreOf(f))(c, r) == Outcome(f(Derived(stages[a], c, r), r), [Derived(stages[a], c, r)])
  {
    hide Chain, CoreOf, WellOrdered, Entitled, Derived, Admits, Own;
    ChainReaches(stages, f, c, r);
    a := PipelineSound(stages, c, r);
    var o := Chain(stages, CoreOf(f))(c, r);
    assert Reaches(stages, c, r, o.reached[0]);
    assert o.reached == [o.reached[0]];
  }

  // The validation is needed: a list that Validate refuses can reach the core without any token.
  lemma UnvalidatedWitness(f: (Ctx, Request) -> Reply) returns (stages: seq<Stage>, c: Ctx, r: Request)
    ensures !WellOrdered(stages) && Authorization in stages && Token(r) == ""
    ensures Chain(stages, CoreOf(f))(c, r).reached == [c]
  {
    stages, c, r := [Authorization], WithUser(NewRoot("", ""), "u", "", map[]), Request("", Normal, map[]);
    assert stages[1..] == [];
    assert Dependencies(stages[0]) == ["authenticated"] && "authenticated" in Dependencies(stages[0]);
    assert !ProvidedBefore(stages, 0, "authenticated");
    assert !DependenciesMet(stages, 0);
  }
}
