// Topic patterns of core/events/bus.go.

module Topics {
  // strings.Split(s, "."): the segments between the dots, at least one.
  function Split(s: string): (segs: seq<string>)
    ensures |segs| >= 1
  {
    if s == "" then [""]
    else
      var rest := Split(s[1..]);
      if s[0] == '.' then [""] + rest else [[s[0]] + rest[0]] + rest[1..]
  }

  function Join(segs: seq<string>): string
    requires |segs| >= 1
  {
    if |segs| == 1 then segs[0] else segs[0] + "." + Join(segs[1..])
  }

  predicate NoDot(s: string) { forall i :: 0 <= i < |s| ==> s[i] != '.' }

  // Splitting loses nothing: the segments contain no dot and joining them gives the string back.
  lemma {:induction false} SplitJoin(s: string)
    ensures Join(Split(s)) == s
    ensures forall i :: 0 <= i < |Split(s)| ==> NoDot(Split(s)[i])
  {
    if s != "" {
      SplitJoin(s[1..]);
      var rest := Split(s[1..]);
      if s[0] == '.' {
        assert Split(s)[1..] == rest;
        assert Join(Split(s)) == "" + "." + Join(rest);
      } else {
        assert Split(s)[1..] == rest[1..];
        assert Join(Split(s)) == [s[0]] + Join(rest);
      }
      assert s == [s[0]] + s[1..];
    }
  }

  predicate SegmentOk(p: string, t: string) { p == "*" || p == t }

  // Segment-wise matching: "*" stands for one segment, "**" for any rest.
  predicate SegmentsMatch(p: seq<string>, t: seq<string>) {
    if p == [] then t == []
    else if p[0] == "**" then true
    else t != [] && SegmentOk(p[0], t[0]) && SegmentsMatch(p[1..], t[1..])
  }

  predicate Matches(pattern: string, topic: string) {
    pattern == "*" || SegmentsMatch(Split(pattern), Split(topic))
  }

  method MatchTopic(pattern: string, topic: string) returns (ok: bool)
    ensures ok == Matches(pattern, topic)
  {
    if pattern == "*" { return true; }
    if pattern == topic {
      MatchesItself(Split(topic));
      return true;
    }
    var pSegs, tSegs := Split(pattern), Split(topic);
    var i := 0;
    while i < |pSegs|
      invariant 0 <= i <= |pSegs| && i <= |tSegs|
      invariant SegmentsMatch(pSegs, tSegs) == SegmentsMatch(pSegs[i..], tSegs[i..])
    {
      assert pSegs[i..][1..] == pSegs[i + 1..];
      var p := pSegs[i];
      if p == "**" { return true; }
      if i >= |tSegs| { return false; }
      assert tSegs[i..][1..] == tSegs[i + 1..];
      if p != "*" && p != tSegs[i] { return false; }
      i := i + 1;
    }
    return |pSegs| == |tSegs|;
  }

  lemma {:induction false} MatchesItself(t: seq<string>)
    ensures SegmentsMatch(t, t)
  {
    if t != [] { MatchesItself(t[1..]); }
  }

  // In closed form: either both have the same number of segments and agree position by
  // position, or a "**" follows a prefix on which they agree.
  lemma {:induction false} SegmentsMatchIff(p: seq<string>, t: seq<string>)
    ensures SegmentsMatch(p, t) <==>
      (|p| == |t| && forall i :: 0 <= i < |p| ==> SegmentOk(p[i], t[i]))
      || (exists k :: 0 <= k < |p| && k <= |t| && p[k] == "**" && forall i :: 0 <= i < k ==> SegmentOk(p[i], t[i]))
  {
    if p != [] && p[0] != "**" && t != [] && SegmentOk(p[0], t[0]) {
      SegmentsMatchIff(p[1..], t[1..]);
      var p1, t1 := p[1..], t[1..];
      if k :| 0 <= k < |p1| && k <= |t1| && p1[k] == "**" && forall i :: 0 <= i < k ==> SegmentOk(p1[i], t1[i])
      {
        forall i | 0 <= i < k + 1 ensures SegmentOk(p[i], t[i]) {
          if i > 0 { assert SegmentOk(p[1..][i - 1], t[1..][i - 1]); }
        }
        assert p[k + 1] == "**";
      }
      if k :| 0 <= k < |p| && k <= |t| && p[k] == "**" && forall i :: 0 <= i < k ==> SegmentOk(p[i], t[i]) {
        assert k > 0 && p[1..][k - 1] == "**";
        assert forall i :: 0 <= i < k - 1 ==> SegmentOk(p[1..][i], t[1..][i]);
      }
      if |p| == |t| && forall i :: 0 <= i < |p| ==> SegmentOk(p[i], t[i]) {
        assert forall i :: 0 <= i < |p| - 1 ==> SegmentOk(p[1..][i], t[1..][i]);
      }
      if |p[1..]| == |t[1..]| && forall i :: 0 <= i < |p| - 1 ==> SegmentOk(p[1..][i], t[1..][i]) {
        forall i | 0 <= i < |p| ensures SegmentOk(p[i], t[i]) {
          if i > 0 { assert SegmentOk(p[1..][i - 1], t[1..][i - 1]); }
        }
      }
    }
  }

  // When a pattern matches a topic: it is a single star; or both have the same segments, a star
  // standing for any one; or a double star follows segments of which the same is true.
  lemma MatchesIff(pattern: string, topic: string)
    ensures var p, t := Split(pattern), Split(topic);
      Matches(pattern, topic) <==>
        || pattern == "*"
        || (|p| == |t| && forall i :: 0 <= i < |p| ==> p[i] in {"*", t[i]})
        || (exists k :: 0 <= k < |p| && k <= |t| && p[k] == "**" && forall i :: 0 <= i < k ==> p[i] in {"*", t[i]})
  {
    hide Split;
    SegmentsMatchIff(Split(pattern), Split(topic));
    var p, t := Split(pattern), Split(topic);
    assert forall i :: 0 <= i < |p| && i < |t| ==> (SegmentOk(p[i], t[i]) <==> p[i] in {"*", t[i]});
  }
}
