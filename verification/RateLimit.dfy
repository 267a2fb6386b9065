// The per-user token bucket of core/middleware/ratelimit.go. Times are seconds.

module RateLimit {
  import opened Option

  datatype Bucket = Bucket(tokens: real, last: real)

  type Buckets = map<string, Bucket>

  // A request of a user. The clock is read at now, and before that at created when the user
  // has no bucket yet.
  datatype Call = Call(user: string, created: real, now: real)

  datatype Limits = Limits(rate: real, capacity: real)

  predicate Sane(l: Limits) { l.rate >= 0.0 && l.capacity >= 0.0 }

  function Least(a: real, b: real): real { if a > b then b else a }

  // The tokens gained in dt seconds.
  function Gain(rate: real, dt: real): real { dt * rate }

  lemma GainIs(rate: real, dt: real)
    ensures Gain(rate, dt) == dt * rate
  {
  }

  lemma GainFacts(rate: real, a: real, b: real)
    requires rate >= 0.0
    ensures Gain(rate, a + b) == Gain(rate, a) + Gain(rate, b)
    ensures Gain(rate, 0.0) == 0.0
    ensures a >= 0.0 ==> Gain(rate, a) >= 0.0
    ensures b >= 0.0 ==> Gain(rate, b) >= 0.0
  {
  }

  // What a user could spend at time t.
  function Available(s: Buckets, l: Limits, user: string, t: real): real {
    if user in s then Least(s[user].tokens + Gain(l.rate, t - s[user].last), l.capacity) else l.capacity
  }

  // A user whose bucket holds a whole token at the time of the call is admitted, and pays it.
  predicate Admitted(s: Buckets, l: Limits, c: Call) {
    c.user == "" || Available(s, l, c.user, c.now) >= 1.0
  }

  function Served(s: Buckets, l: Limits, c: Call): Buckets {
    if c.user == "" then s
    else s[c.user := Bucket(Available(s, l, c.user, c.now) - if Admitted(s, l, c) then 1.0 else 0.0, c.now)]
  }

  // 0 <= tokens <= capacity, and no bucket was touched after t.
  ghost predicate Valid(s: Buckets, l: Limits, t: real) {
    forall u :: u in s ==> 0.0 <= s[u].tokens <= l.capacity && s[u].last <= t
  }

  class RateLimiter {
    var buckets: Buckets
    const limits: Limits

    constructor (rate: real, capacity: real)
      ensures buckets == map[] && limits == Limits(rate, capacity)
    {
      buckets := map[];
      limits := Limits(rate, capacity);
    }

    // Whether the request goes on to the next handler.
    method Handle(user: string, created: real, now: real) returns (admitted: bool)
      requires Sane(limits) && created <= now && Valid(buckets, limits, created)
      modifies this
      ensures admitted == Admitted(old(buckets), limits, Call(user, created, now))
      ensures buckets == Served(old(buckets), limits, Call(user, created, now))
      ensures Valid(buckets, limits, now)
    {
      hide Gain;
      if user == "" { return true; }
      var bucket := if user in buckets then buckets[user] else Bucket(limits.capacity, created);
      var elapsed := now - bucket.last;
      GainFacts(limits.rate, elapsed, 0.0);
      var tokens := bucket.tokens + Gain(limits.rate, elapsed);
      if tokens > limits.capacity { tokens := limits.capacity; }
      admitted := tokens >= 1.0;
      if admitted { tokens := tokens - 1.0; }
      buckets := buckets[user := Bucket(tokens, now)];
    }
  }

  // ---------------------------------------------------------------- histories

  // Clock readings never go back, starting from t.
  predicate Ordered(t: real, calls: seq<Call>)
    decreases |calls|
  {
    |calls| == 0 || (t <= calls[0].created <= calls[0].now && Ordered(calls[0].now, calls[1..]))
  }

  function After(s: Buckets, l: Limits, calls: seq<Call>): Buckets
    decreases |calls|
  {
    if |calls| == 0 then s else After(Served(s, l, calls[0]), l, calls[1..])
  }

  // The decisions on a user's calls, in order.
  function Decisions(s: Buckets, l: Limits, calls: seq<Call>, user: string): seq<bool>
    decreases |calls|
  {
    if |calls| == 0 then [] else
      (if calls[0].user == user then [Admitted(s, l, calls[0])] else [])
        + Decisions(Served(s, l, calls[0]), l, calls[1..], user)
  }

  function Admissions(ds: seq<bool>): nat {
    if ds == [] then 0 else (if ds[0] then 1 else 0) + Admissions(ds[1..])
  }

  function EndOf(t: real, calls: seq<Call>): real { if |calls| == 0 then t else calls[|calls| - 1].now }

  lemma ServedValid(s: Buckets, l: Limits, c: Call)
    requires Sane(l) && c.created <= c.now && Valid(s, l, c.created)
    ensures Valid(Served(s, l, c), l, c.now)
  {
    hide Gain;
    if c.user in s { GainFacts(l.rate, c.now - s[c.user].last, 0.0); }
  }

  lemma {:induction false} AfterValid(s: Buckets, l: Limits, t: real, calls: seq<Call>)
    requires Sane(l) && Valid(s, l, t) && Ordered(t, calls)
    ensures Valid(After(s, l, calls), l, EndOf(t, calls)) && t <= EndOf(t, calls)
    decreases |calls|
  {
    if |calls| > 0 {
      ServedValid(s, l, calls[0]);
      AfterValid(Served(s, l, calls[0]), l, calls[0].now, calls[1..]);
    }
  }

  // Between t and a later time a bucket gains at most the rate times the time passed.
  lemma AvailableGrows(s: Buckets, l: Limits, user: string, t: real, now: real)
    requires Sane(l) && t <= now
    ensures Available(s, l, user, now) <= Available(s, l, user, t) + Gain(l.rate, now - t)
  {
    hide Gain;
    GainFacts(l.rate, now - t, 0.0);
    if user in s {
      var last := s[user].last;
      GainFacts(l.rate, t - last, now - t);
      assert (t - last) + (now - t) == now - last;
    }
  }

  lemma AvailableAfter(s: Buckets, l: Limits, c: Call, user: string)
    requires Sane(l) && c.created <= c.now && Valid(s, l, c.created) && user != ""
    ensures Available(Served(s, l, c), l, user, c.now)
         == Available(s, l, user, c.now) - if c.user == user && Admitted(s, l, c) then 1.0 else 0.0
  {
    hide Gain;
    ServedValid(s, l, c);
    GainFacts(l.rate, 0.0, 0.0);
    assert c.now - c.now == 0.0;
  }

  lemma {:induction false} SpendingBound(s: Buckets, l: Limits, t: real, calls: seq<Call>, user: string)
    requires Sane(l) && Valid(s, l, t) && Ordered(t, calls) && user != ""
    ensures Admissions(Decisions(s, l, calls, user)) as real <= Available(s, l, user, t)
      + Gain(l.rate, EndOf(t, calls) - t)
    decreases |calls|
  {
    hide Gain, Available, Admitted, Served;
    if |calls| == 0 {
      GainFacts(l.rate, 0.0, 0.0);
      assert t - t == 0.0;
      NotNegative(s, l, user, t);
    } else {
      var c, rest := calls[0], calls[1..];
      var u := Served(s, l, c);
      ServedValid(s, l, c);
      SpendingBound(u, l, c.now, rest, user);
      AvailableAfter(s, l, c, user);
      AvailableGrows(s, l, user, t, c.now);
      var end := EndOf(c.now, rest);
      assert end == EndOf(t, calls);
      GainFacts(l.rate, end - c.now, c.now - t);
      assert (end - c.now) + (c.now - t) == end - t;
      FirstDecision(s, l, calls, user);
    }
  }

  lemma NotNegative(s: Buckets, l: Limits, user: string, t: real)
    requires Sane(l) && Valid(s, l, t)
    ensures Available(s, l, user, t) >= 0.0
  {
    hide Gain;
    if user in s { GainFacts(l.rate, t - s[user].last, 0.0); }
  }

  lemma FirstDecision(s: Buckets, l: Limits, calls: seq<Call>, user: string)
    requires |calls| > 0
    ensures var rest := Admissions(Decisions(Served(s, l, calls[0]), l, calls[1..], user));
      Admissions(Decisions(s, l, calls, user))
      == rest + if calls[0].user == user && Admitted(s, l, calls[0]) then 1 else 0
  {
    var ds := Decisions(Served(s, l, calls[0]), l, calls[1..], user);
    if calls[0].user == user {
      assert ([Admitted(s, l, calls[0])] + ds)[1..] == ds;
    } else {
      assert [] + ds == ds;
    }
  }

  lemma WindowGain(l: Limits, start: real, before: seq<Call>, t: real, window: seq<Call>, span: real, user: string)
    requires Sane(l) && user != ""
    requires Ordered(start, before) && EndOf(start, before) <= t
    requires Ordered(t, window) && EndOf(t, window) <= t + span
    ensures Admissions(Decisions(After(map[], l, before), l, window, user)) as real <= l.capacity + Gain(l.rate, span)
  {
    hide Gain, Decisions;
    var s := After(map[], l, before);
    AfterValid(map[], l, start, before);
    SpendingBound(s, l, t, window, user);
    var used := EndOf(t, window) - t;
    GainFacts(l.rate, used, span - used);
    assert used + (span - used) == span;
  }

  // Over any history of all users: in a window of consecutive calls that starts at time t and
  // lasts span seconds, a user is admitted at most capacity + rate * span times.
  lemma WindowBound(l: Limits, start: real, before: seq<Call>, t: real, window: seq<Call>, span: real, user: string)
    requires Sane(l) && user != ""
    requires Ordered(start, before) && EndOf(start, before) <= t
    requires Ordered(t, window) && EndOf(t, window) <= t + span
    ensures Admissions(Decisions(After(map[], l, before), l, window, user)) as real <= l.capacity + span * l.rate
  {
    hide Admissions, Decisions, After, Ordered, EndOf, Sane, Gain;
    WindowGain(l, start, before, t, window, span, user);
    GainIs(l.rate, span);
  }

  function Only(calls: seq<Call>, user: string): seq<Call>
    decreases |calls|
  {
    if |calls| == 0 then [] else (if calls[0].user == user then [calls[0]] else []) + Only(calls[1..], user)
  }

  // The decisions on a user's calls are those of a history in which nobody else called.
  lemma {:induction false} UsersIsolated(s: Buckets, t: Buckets, l: Limits, calls: seq<Call>, user: string)
    requires user in s <==> user in t
    requires user in s ==> s[user] == t[user]
    ensures Decisions(s, l, calls, user) == Decisions(t, l, Only(calls, user), user)
    decreases |calls|
  {
    if |calls| > 0 {
      var c, rest := calls[0], calls[1..];
      if c.user == user {
        UsersIsolated(Served(s, l, c), Served(t, l, c), l, rest, user);
        var only := [c] + Only(rest, user);
        assert only[0] == c && only[1..] == Only(rest, user);
      } else {
        UsersIsolated(Served(s, l, c), t, l, rest, user);
        assert Only(calls, user) == Only(rest, user);
      }
    }
  }

  // Each call of the user comes at least 1 / rate seconds after the one before.
  predicate Spaced(l: Limits, calls: seq<Call>, user: string, last: Option<real>)
    decreases |calls|
  {
    |calls| == 0 ||
    if calls[0].user == user
    then (last.Some? ==> (calls[0].now - last.value) * l.rate >= 1.0)
      && Spaced(l, calls[1..], user, Some(calls[0].now))
    else Spaced(l, calls[1..], user, last)
  }

  // Enough is gained between the user's calls.
  predicate Gaining(l: Limits, calls: seq<Call>, user: string, last: Option<real>)
    decreases |calls|
  {
    |calls| == 0 ||
    if calls[0].user == user
    then (last.Some? ==> Gain(l.rate, calls[0].now - last.value) >= 1.0)
      && Gaining(l, calls[1..], user, Some(calls[0].now))
    else Gaining(l, calls[1..], user, last)
  }

  lemma {:induction false} SpacedGains(l: Limits, calls: seq<Call>, user: string, last: Option<real>)
    requires Spaced(l, calls, user, last)
    ensures Gaining(l, calls, user, last)
    decreases |calls|
  {
    if |calls| > 0 { SpacedGains(l, calls[1..], user, if calls[0].user == user then Some(calls[0].now) else last); }
  }

  lemma {:induction false} SpacedFrom(s: Buckets, l: Limits, t: real, calls: seq<Call>, user: string,
    last: Option<real>)
    requires Sane(l) && l.capacity >= 1.0 && Valid(s, l, t) && Ordered(t, calls) && user != ""
    requires Gaining(l, calls, user, last)
    requires if last.Some? then user in s && s[user].last == last.value else user !in s
    ensures forall k :: 0 <= k < |Decisions(s, l, calls, user)| ==> Decisions(s, l, calls, user)[k]
    decreases |calls|
  {
    hide Gain;
    if |calls| > 0 {
      var c := calls[0];
      ServedValid(s, l, c);
      SpacedFrom(Served(s, l, c), l, c.now, calls[1..], user, if c.user == user then Some(c.now) else last);
    }
  }

  // A user who spaces calls by at least 1 / rate is never refused, whatever the others do,
  // provided the capacity is at least one token; with less capacity nobody is ever admitted.
  lemma SpacedNeverRefused(l: Limits, start: real, calls: seq<Call>, user: string)
    requires Sane(l) && Ordered(start, calls) && Spaced(l, calls, user, None) && user != ""
    ensures var ds := Decisions(map[], l, calls, user);
      if l.capacity >= 1.0 then forall k :: 0 <= k < |ds| ==> ds[k] else forall k :: 0 <= k < |ds| ==> !ds[k]
  {
    if l.capacity >= 1.0 {
      SpacedGains(l, calls, user, None);
      SpacedFrom(map[], l, start, calls, user, None);
    } else {
      NeverAdmitted(map[], l, calls, user);
    }
  }

  lemma {:induction false} NeverAdmitted(s: Buckets, l: Limits, calls: seq<Call>, user: string)
    requires l.capacity < 1.0 && user != ""
    ensures forall k :: 0 <= k < |Decisions(s, l, calls, user)| ==> !Decisions(s, l, calls, user)[k]
    decreases |calls|
  {
    if |calls| > 0 { NeverAdmitted(Served(s, l, calls[0]), l, calls[1..], user); }
  }
}
