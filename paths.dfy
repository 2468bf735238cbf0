/** Method paths are '/'-separated segment lists. Python's `s.split('/')` is
    modelled by `Split`, whose inverse is `Join` ('/'.join); the client only
    ever looks at the first segment, `FirstSegment`. */
module Paths {

  /** The parts with a '/' between consecutive parts. */
  function Join(parts: seq<string>): string
    requires |parts| >= 1
  {
    if |parts| == 1 then parts[0] else parts[0] + "/" + Join(parts[1..])
  }

  /** No part contains the separator. */
  predicate SlashFree(parts: seq<string>)
  {
    forall i :: 0 <= i < |parts| ==> '/' !in parts[i]
  }

  /** `s.split('/')`: the maximal separator-free pieces of `s`, at least one
      (the empty string splits into one empty piece). */
  function Split(s: string): (parts: seq<string>)
    ensures |parts| >= 1 && SlashFree(parts)
    ensures Join(parts) == s
  {
    if s == [] then [""]
    else
      var rest := Split(s[1..]);
      if s[0] == '/' then
        assert ([""] + rest)[1..] == rest;
        [""] + rest
      else
        JoinExtendFirst(s[0], rest);
        [[s[0]] + rest[0]] + rest[1..]
  }

  /** Prefixing a character to the first part prefixes it to the joined string. */
  lemma JoinExtendFirst(c: char, parts: seq<string>)
    requires |parts| >= 1
    ensures Join([[c] + parts[0]] + parts[1..]) == [c] + Join(parts)
  {
    var ext := [[c] + parts[0]] + parts[1..];
    if |parts| > 1 {
      assert ext[1..] == parts[1..];
    }
  }

  /** Joining a concatenation puts one separator between the two joins. */
  lemma {:induction false} JoinAppend(p: seq<string>, q: seq<string>)
    requires |p| >= 1 && |q| >= 1
    ensures Join(p + q) == Join(p) + "/" + Join(q)
  {
    if |p| == 1 {
      assert (p + q)[1..] == q;
    } else {
      assert (p + q)[1..] == p[1..] + q;
      JoinAppend(p[1..], q);
    }
  }

  /** How the first part sits in the joined string. */
  lemma JoinShape(parts: seq<string>)
    requires |parts| >= 1
    ensures parts[0] <= Join(parts)
    ensures |parts| == 1 ==> Join(parts) == parts[0]
    ensures |parts| > 1 ==> |Join(parts)| > |parts[0]| && Join(parts)[|parts[0]|] == '/'
                            && Join(parts)[|parts[0]| + 1..] == Join(parts[1..])
  {
    if |parts| > 1 {
      var s := Join(parts);
      assert s == parts[0] + ("/" + Join(parts[1..]));
    }
  }

  /** A separator-free prefix of a join is no longer than its first part. */
  lemma FirstPartIsLongest(parts: seq<string>, t: string)
    requires |parts| >= 1 && SlashFree(parts)
    requires t <= Join(parts) && '/' !in t
    ensures |t| <= |parts[0]|
  {
    JoinShape(parts);
  }

  /** Over separator-free parts, Join is injective. */
  lemma {:induction false} JoinInjective(p: seq<string>, q: seq<string>)
    requires |p| >= 1 && |q| >= 1 && SlashFree(p) && SlashFree(q)
    requires Join(p) == Join(q)
    ensures p == q
    decreases |p|
  {
    var s := Join(p);
    JoinShape(p);
    JoinShape(q);
    FirstPartIsLongest(p, q[0]);
    FirstPartIsLongest(q, p[0]);
    assert p[0] == s[..|p[0]|] == q[0];
    if |p| > 1 && |q| > 1 {
      assert SlashFree(p[1..]) && SlashFree(q[1..]);
      JoinInjective(p[1..], q[1..]);
      assert p == [p[0]] + p[1..];
      assert q == [q[0]] + q[1..];
    }
  }

  /** Round trip: splitting a join of separator-free parts gives the parts back
      (the other direction, Join(Split(s)) == s, is Split's postcondition). */
  lemma SplitJoin(parts: seq<string>)
    requires |parts| >= 1 && SlashFree(parts)
    ensures Split(Join(parts)) == parts
  {
    JoinInjective(Split(Join(parts)), parts);
  }

  /** A separator-free string is a single piece. */
  lemma SplitSlashFree(p: string)
    requires '/' !in p
    ensures Split(p) == [p]
  {
    SplitJoin([p]);
  }

  lemma SlashFreeAppend(p: seq<string>, q: seq<string>)
    requires SlashFree(p) && SlashFree(q)
    ensures SlashFree(p + q)
  {
    forall i | 0 <= i < |p + q|
      ensures '/' !in (p + q)[i]
    {
      if i >= |p| {
        assert (p + q)[i] == q[i - |p|];
      }
    }
  }

  /** Splitting `a + "/" + b` gives the pieces of `a` followed by those of `b`. */
  lemma SplitAppend(a: string, b: string)
    ensures Split(a + "/" + b) == Split(a) + Split(b)
  {
    var parts := Split(a) + Split(b);
    JoinAppend(Split(a), Split(b));
    SlashFreeAppend(Split(a), Split(b));
    SplitJoin(parts);
  }

  /** A separator-free name followed by '/' contributes one leading piece. */
  lemma SplitUnder(p: string, rest: string)
    requires '/' !in p
    ensures Split(p + "/" + rest) == [p] + Split(rest)
  {
    SplitAppend(p, rest);
    SplitSlashFree(p);
  }

  /** A prefix that spells out separator-free pieces followed by '/'
      contributes exactly those pieces. */
  lemma SplitPrefixed(prefix: string, pieces: seq<string>, rest: string)
    requires |pieces| >= 1 && SlashFree(pieces) && prefix == Join(pieces) + "/"
    ensures Split(prefix + rest) == pieces + Split(rest)
  {
    assert prefix + rest == Join(pieces) + "/" + rest;
    SplitAppend(Join(pieces), rest);
    SplitJoin(pieces);
  }

  /** `s.split('/')[0]`: the text before the first '/', or all of `s`. */
  function FirstSegment(s: string): (seg: string)
    ensures seg <= s && '/' !in seg
    ensures |seg| < |s| ==> s[|seg|] == '/'
  {
    var parts := Split(s);
    JoinShape(parts);
    parts[0]
  }

  /** A separator-free prefix of `s` is a prefix of its first segment. */
  lemma SlashFreePrefix(s: string, p: string)
    requires p <= s && '/' !in p
    ensures p <= FirstSegment(s)
  {
  }

  /** The first segment of `p` and of `p + "/" + anything` is `p` itself. */
  lemma FirstSegmentUnder(s: string, p: string)
    requires '/' !in p
    requires s == p || p + "/" <= s
    ensures FirstSegment(s) == p
  {
    if s == p {
      SplitSlashFree(p);
    } else {
      var rest := s[|p| + 1..];
      assert s == p + "/" + rest;
      SplitAppend(p, rest);
      SplitSlashFree(p);
    }
  }
}
