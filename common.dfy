/** Shared value types and the string operations the bot's handlers rely on. */
module Common {

  datatype Option<+T> = None | Some(value: T) {
    /** `x ?? default`, and also `x || default` for values that are never falsy. */
    function GetOr(default: T): T {
      match this
      case Some(v) => v
      case None => default
    }
  }

  /** What an awaited Slack Web API call yields: it throws, or it returns a body. */
  datatype Reply<+T> = Failed | Answered(body: T)

  /** How a handler ends: it reaches its final post, or an exception took it to its `catch`. */
  datatype Outcome<+T> = Done(value: T) | Aborted

  /** JavaScript's `s.includes(sub)`. */
  predicate Includes(s: string, sub: string)
    decreases |s|
  {
    |sub| <= |s| && (s[..|sub|] == sub || Includes(s[1..], sub))
  }

  /** JavaScript's `s.replace(c, '')` with a one-character string pattern: only the
      first occurrence of `c` is removed. */
  function RemoveFirst(s: string, c: char): (r: string)
    ensures c !in s ==> r == s
    ensures c in s ==> |r| == |s| - 1 && multiset(r)[c] == multiset(s)[c] - 1
  {
    if s == [] then []
    else
      assert s == [s[0]] + s[1..];
      if s[0] == c then s[1..] else [s[0]] + RemoveFirst(s[1..], c)
  }

  /** Removing the first `c` cuts exactly at its first position. */
  lemma {:induction false} RemoveFirstAt(s: string, c: char, i: nat)
    requires i < |s| && s[i] == c && c !in s[..i]
    ensures RemoveFirst(s, c) == s[..i] + s[i + 1..]
  {
    if i > 0 {
      assert s == [s[0]] + s[1..];
      assert RemoveFirst(s, c) == [s[0]] + RemoveFirst(s[1..], c);
      assert s[1..][..i - 1] == s[1..i];
      assert c !in s[1..][..i - 1];
      RemoveFirstAt(s[1..], c, i - 1);
      assert s[1..][i - 1 + 1..] == s[i + 1..];
      assert s[..i] == [s[0]] + s[1..][..i - 1];
    }
  }

  /** Removing the first `c` from `a + [c] + b`, when `a` has none, joins `a` and `b`. */
  lemma RemoveFirstSplit(a: string, c: char, b: string)
    requires c !in a
    ensures RemoveFirst(a + [c] + b, c) == a + b
  {
    var s := a + [c] + b;
    assert s[..|a|] == a && s[|a| + 1..] == b;
    RemoveFirstAt(s, c, |a|);
  }

  /** `sub` occurs in `s` starting at position `k`. */
  predicate OccursAt(s: string, sub: string, k: nat) {
    k + |sub| <= |s| && s[k..k + |sub|] == sub
  }

  /** An occurrence at any position is found by `includes`. */
  lemma {:induction false} IncludesAt(s: string, sub: string, k: nat)
    requires OccursAt(s, sub, k)
    ensures Includes(s, sub)
    decreases k
  {
    if k > 0 {
      assert s[1..][k - 1..k - 1 + |sub|] == sub;
      IncludesAt(s[1..], sub, k - 1);
    } else {
      assert s[..|sub|] == sub;
    }
  }

  /** What `includes` finds occurs at some position. */
  lemma {:induction false} Occurrence(s: string, sub: string) returns (k: nat)
    requires Includes(s, sub)
    ensures OccursAt(s, sub, k)
    decreases |s|
  {
    if s[..|sub|] == sub {
      k := 0;
    } else {
      var j := Occurrence(s[1..], sub);
      assert s[j + 1..j + 1 + |sub|] == s[1..][j..j + |sub|];
      k := j + 1;
    }
  }

  /** A text is found inside any text built around it. */
  lemma IncludesMiddle(a: string, s: string, b: string)
    ensures Includes(a + s + b, s)
  {
    assert (a + s + b)[|a|..|a| + |s|] == s;
    IncludesAt(a + s + b, s, |a|);
  }

  /** What a found text contains is found in the larger text too. */
  lemma IncludesTrans(s: string, mid: string, sub: string)
    requires Includes(s, mid) && Includes(mid, sub)
    ensures Includes(s, sub)
  {
    var k := Occurrence(s, mid);
    var j := Occurrence(mid, sub);
    assert forall t :: 0 <= t < |sub| ==> s[k + j + t] == s[k..k + |mid|][j + t] == mid[j + t] == sub[t];
    assert s[k + j..k + j + |sub|] == sub;
    IncludesAt(s, sub, k + j);
  }

  /** Text around an occurrence keeps it. */
  lemma IncludesWithin(a: string, s: string, b: string, sub: string)
    requires Includes(s, sub)
    ensures Includes(a + s + b, sub)
  {
    var k := Occurrence(s, sub);
    assert (a + s + b)[|a| + k..|a| + k + |sub|] == s[k..k + |sub|];
    IncludesAt(a + s + b, sub, |a| + k);
  }
}
