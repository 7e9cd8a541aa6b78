/**
  The few Python string operations the renderers are built from: `sep.join(parts)`,
  substring search (`sub in s`) and prefix/suffix tests, with the facts about them
  that the section lemmas rest on.
 */
module Text {

  /** `sep.join(parts)`: the parts with `sep` between neighbours and nowhere else. */
  function Join(sep: string, parts: seq<string>): string
  {
    if |parts| == 0 then ""
    else if |parts| == 1 then parts[0]
    else parts[0] + sep + Join(sep, parts[1..])
  }

  /** Every part followed by `sep`, all concatenated. */
  function Terminated(sep: string, parts: seq<string>): string
  {
    if parts == [] then "" else parts[0] + sep + Terminated(sep, parts[1..])
  }

  predicate StartsWith(s: string, prefix: string)
  {
    |prefix| <= |s| && s[..|prefix|] == prefix
  }

  predicate EndsWith(s: string, suffix: string)
  {
    |suffix| <= |s| && s[|s| - |suffix|..] == suffix
  }

  /** `sub` starts at index `k` of `s`. */
  predicate OccursAt(s: string, sub: string, k: int)
  {
    0 <= k <= |s| - |sub| && s[k..k + |sub|] == sub
  }

  /** Python's `sub in s`. */
  ghost predicate Contains(s: string, sub: string)
  {
    exists k :: OccursAt(s, sub, k)
  }

  /** Cutting `s` at `k` leaves an `x` on the left and a `y` on the right. */
  ghost predicate SplitsAt(s: string, x: string, y: string, k: int)
  {
    0 <= k <= |s| && Contains(s[..k], x) && Contains(s[k..], y)
  }

  /** Some occurrence of `x` ends before some occurrence of `y` begins. */
  ghost predicate Precedes(s: string, x: string, y: string)
  {
    exists k :: SplitsAt(s, x, y, k)
  }

  /** Joining with a last part appended is terminating every earlier part, then the last one. */
  lemma {:induction false} JoinSnoc(sep: string, parts: seq<string>, last: string)
    ensures Join(sep, parts + [last]) == Terminated(sep, parts) + last
  {
    if parts != [] {
      assert (parts + [last])[1..] == parts[1..] + [last];
      JoinSnoc(sep, parts[1..], last);
    }
  }

  lemma ContainsSelf(s: string)
    ensures Contains(s, s)
  {
    assert s[0..|s|] == s;
    assert OccursAt(s, s, 0);
  }

  /** Text around a string keeps every substring of it. */
  lemma ContainsConcat(a: string, s: string, b: string, sub: string)
    requires Contains(s, sub)
    ensures Contains(a + s + b, sub)
  {
    var k :| OccursAt(s, sub, k);
    assert (a + s + b)[|a| + k..|a| + k + |sub|] == s[k..k + |sub|];
    assert OccursAt(a + s + b, sub, |a| + k);
  }

  lemma ContainsMiddle(a: string, s: string, b: string)
    ensures Contains(a + s + b, s)
  {
    ContainsSelf(s);
    ContainsConcat(a, s, b, s);
  }

  lemma ContainsPrefix(a: string, b: string)
    ensures Contains(a + b, a)
  {
    assert (a + b)[0..|a|] == a;
    assert OccursAt(a + b, a, 0);
  }

  lemma ContainsSuffix(a: string, b: string)
    ensures Contains(a + b, b)
  {
    assert (a + b)[|a|..|a| + |b|] == b;
    assert OccursAt(a + b, b, |a|);
  }

  lemma ContainsTrans(s: string, m: string, sub: string)
    requires Contains(s, m) && Contains(m, sub)
    ensures Contains(s, sub)
  {
    var k1 :| OccursAt(s, m, k1);
    var k2 :| OccursAt(m, sub, k2);
    forall i | 0 <= i < |sub|
      ensures s[k1 + k2..k1 + k2 + |sub|][i] == sub[i]
    {
      assert sub[i] == m[k2 + i] == s[k1 + k2 + i];
    }
    assert OccursAt(s, sub, k1 + k2);
  }

  /** `p in sep.join(parts)` for every part `p`. */
  lemma {:induction false} JoinContains(sep: string, parts: seq<string>, i: nat)
    requires i < |parts|
    ensures Contains(Join(sep, parts), parts[i])
  {
    if |parts| == 1 {
      ContainsSelf(parts[0]);
    } else if i == 0 {
      ContainsMiddle("", parts[0], sep + Join(sep, parts[1..]));
      assert "" + parts[0] + (sep + Join(sep, parts[1..])) == Join(sep, parts);
    } else {
      JoinContains(sep, parts[1..], i - 1);
      ContainsConcat(parts[0] + sep, Join(sep, parts[1..]), "", parts[i]);
      assert parts[0] + sep + Join(sep, parts[1..]) + "" == Join(sep, parts);
    }
  }

  lemma {:induction false} TerminatedContains(sep: string, parts: seq<string>, i: nat)
    requires i < |parts|
    ensures Contains(Terminated(sep, parts), parts[i])
  {
    if i == 0 {
      ContainsMiddle("", parts[0], sep + Terminated(sep, parts[1..]));
      assert "" + parts[0] + (sep + Terminated(sep, parts[1..])) == Terminated(sep, parts);
    } else {
      TerminatedContains(sep, parts[1..], i - 1);
      ContainsConcat(parts[0] + sep, Terminated(sep, parts[1..]), "", parts[i]);
      assert parts[0] + sep + Terminated(sep, parts[1..]) + "" == Terminated(sep, parts);
    }
  }

  lemma PrecedesSplit(u: string, v: string, x: string, y: string)
    requires Contains(u, x) && Contains(v, y)
    ensures Precedes(u + v, x, y)
  {
    assert (u + v)[..|u|] == u;
    assert (u + v)[|u|..] == v;
    assert SplitsAt(u + v, x, y, |u|);
  }

  lemma PrecedesConcat(a: string, s: string, b: string, x: string, y: string)
    requires Precedes(s, x, y)
    ensures Precedes(a + s + b, x, y)
  {
    var k :| SplitsAt(s, x, y, k);
    var t := a + s + b;
    assert t[..|a| + k] == a + s[..k] + "";
    assert t[|a| + k..] == "" + s[k..] + b;
    ContainsConcat(a, s[..k], "", x);
    ContainsConcat("", s[k..], b, y);
    assert SplitsAt(t, x, y, |a| + k);
  }

  /** In a terminated list, an earlier part occurs before a later one. */
  lemma {:induction false} TerminatedPrecedes(sep: string, parts: seq<string>, i: nat, j: nat)
    requires i < j < |parts|
    ensures Precedes(Terminated(sep, parts), parts[i], parts[j])
  {
    var rest := Terminated(sep, parts[1..]);
    if i == 0 {
      ContainsSelf(parts[0]);
      TerminatedContains(sep, parts[1..], j - 1);
      ContainsConcat(sep, rest, "", parts[j]);
      assert sep + rest + "" == sep + rest;
      PrecedesSplit(parts[0], sep + rest, parts[0], parts[j]);
      assert parts[0] + (sep + rest) == Terminated(sep, parts);
    } else {
      TerminatedPrecedes(sep, parts[1..], i - 1, j - 1);
      PrecedesConcat(parts[0] + sep, rest, "", parts[i], parts[j]);
      assert parts[0] + sep + rest + "" == Terminated(sep, parts);
    }
  }
}
