/** A plain JavaScript object used as a counter (`{ [key: string]: number }`), with
    the key order `Object.keys` reports, and the `Object.keys(..).reduce` argmax
    the status board runs over it. */
module Tallies {
  import opened Common

  /** `keys` in enumeration (insertion) order, `counts` the value per key. */
  datatype Tally = Tally(keys: seq<string>, counts: map<string, nat>)

  const Empty: Tally := Tally([], map[])

  /** Keys are listed once each, and exactly the keys that have a count. */
  ghost predicate Valid(t: Tally) {
    && (forall i, j :: 0 <= i < j < |t.keys| ==> t.keys[i] != t.keys[j])
    && (forall k :: k in t.counts <==> k in t.keys)
    && (forall k :: k in t.counts ==> t.counts[k] > 0)
  }

  /** `(t[k] || 0)` */
  function Get(t: Tally, k: string): nat {
    if k in t.counts then t.counts[k] else 0
  }

  /** `t[k] = (t[k] || 0) + 1`: a new key is appended to the enumeration order. */
  function Bump(t: Tally, k: string): (r: Tally)
    ensures Get(r, k) == Get(t, k) + 1
    ensures forall k' :: k' != k ==> Get(r, k') == Get(t, k')
    ensures Valid(t) ==> Valid(r)
    ensures r.counts.Keys == t.counts.Keys + {k}
    ensures k in t.counts ==> r.keys == t.keys
    ensures k !in t.counts ==> r.keys == t.keys + [k]
  {
    if k in t.counts then Tally(t.keys, t.counts[k := t.counts[k] + 1])
    else Tally(t.keys + [k], t.counts[k := 1])
  }

  /** Sum of the counts of `keys`. */
  function SumOf(keys: seq<string>, counts: map<string, nat>): nat {
    if keys == [] then 0
    else (if keys[0] in counts then counts[keys[0]] else 0) + SumOf(keys[1..], counts)
  }

  /** Sum of all values of the counter. */
  function Total(t: Tally): nat {
    SumOf(t.keys, t.counts)
  }

  lemma {:induction false} SumOfAppend(keys: seq<string>, k: string, counts: map<string, nat>)
    ensures SumOf(keys + [k], counts) == SumOf(keys, counts) + (if k in counts then counts[k] else 0)
  {
    if keys != [] {
      assert (keys + [k])[1..] == keys[1..] + [k];
      SumOfAppend(keys[1..], k, counts);
    }
  }

  /** Changing the count of a key that is absent from `keys` leaves their sum alone. */
  lemma {:induction false} SumOfOther(keys: seq<string>, k: string, counts: map<string, nat>, v: nat)
    requires k !in keys
    ensures SumOf(keys, counts[k := v]) == SumOf(keys, counts)
  {
    if keys != [] {
      SumOfOther(keys[1..], k, counts, v);
    }
  }

  /** Raising the count of a key listed once in `keys` by one raises their sum by one. */
  lemma {:induction false} SumOfRaise(keys: seq<string>, k: string, counts: map<string, nat>)
    requires k in counts
    requires forall i, j :: 0 <= i < j < |keys| ==> keys[i] != keys[j]
    requires k in keys
    ensures SumOf(keys, counts[k := counts[k] + 1]) == SumOf(keys, counts) + 1
  {
    if keys[0] == k {
      assert k !in keys[1..];
      SumOfOther(keys[1..], k, counts, counts[k] + 1);
    } else {
      SumOfRaise(keys[1..], k, counts);
    }
  }

  /** Every `Bump` adds exactly one to the sum of all values. */
  lemma BumpTotal(t: Tally, k: string)
    requires Valid(t)
    ensures Total(Bump(t, k)) == Total(t) + 1
  {
    if k in t.counts {
      SumOfRaise(t.keys, k, t.counts);
    } else {
      SumOfAppend(t.keys, k, t.counts[k := 1]);
      SumOfOther(t.keys, k, t.counts, 1);
    }
  }

  /** `t[a] > t[b]` where a missing key reads as `undefined`, and any comparison
      with `undefined` is false. */
  predicate Greater(t: Tally, a: string, b: string) {
    a in t.counts && b in t.counts && t.counts[a] > t.counts[b]
  }

  /** `keys.reduce((a, b) => t[a] > t[b] ? a : b, acc)` */
  function ReduceFrom(keys: seq<string>, t: Tally, acc: string): (r: string)
    ensures r == acc || r in keys
    decreases |keys|
  {
    if keys == [] then acc
    else ReduceFrom(keys[1..], t, if Greater(t, acc, keys[0]) then acc else keys[0])
  }

  /** `Object.keys(t).reduce((a, b) => t[a] > t[b] ? a : b, '')` */
  function ArgMax(t: Tally): (r: string)
    ensures r == "" || r in t.keys
    ensures t.keys == [] ==> r == ""
  {
    ReduceFrom(t.keys, t, "")
  }

  /** What the reduction keeps: a key whose count no key beats, and after which
      every key in the list has a strictly smaller count (a tie goes to the later key). */
  lemma {:induction false} ReduceFromMax(keys: seq<string>, t: Tally, acc: string)
    requires forall i, j :: 0 <= i < j < |keys| ==> keys[i] != keys[j]
    requires forall k :: k in keys ==> k in t.counts
    requires "" !in t.counts
    requires acc == "" || (acc in t.counts && acc !in keys)
    ensures var r := ReduceFrom(keys, t, acc);
      && (r == acc || r in keys)
      && ((acc in t.counts || keys != []) ==> r in t.counts)
      && (r in t.counts ==> forall j :: 0 <= j < |keys| ==> t.counts[keys[j]] <= t.counts[r])
      && (acc in t.counts ==> t.counts[acc] <= t.counts[r])
      && (r in t.counts && r !in keys ==> forall j :: 0 <= j < |keys| ==> t.counts[keys[j]] < t.counts[r])
      && (forall i, j :: 0 <= i < j < |keys| && keys[i] == r ==> t.counts[keys[j]] < t.counts[r])
  {
    if keys != [] {
      var next := if Greater(t, acc, keys[0]) then acc else keys[0];
      assert keys[0] !in keys[1..];
      ReduceFromMax(keys[1..], t, next);
      var r := ReduceFrom(keys, t, acc);
      assert r == ReduceFrom(keys[1..], t, next);
      forall j | 0 <= j < |keys| ensures t.counts[keys[j]] <= t.counts[r] {
        if j > 0 { assert keys[j] == keys[1..][j - 1]; }
      }
      forall i, j | 0 <= i < j < |keys| && keys[i] == r ensures t.counts[keys[j]] < t.counts[r] {
        assert keys[j] == keys[1..][j - 1];
        if i > 0 { assert keys[i] == keys[1..][i - 1]; }
        else {
          assert r !in keys[1..] by {
            forall m | 0 <= m < |keys[1..]| ensures keys[1..][m] != r { assert keys[1..][m] == keys[m + 1]; }
          }
        }
      }
    }
  }

  /** `r` is what the argmax reduction should report for `t`: `''` exactly when the
      counter is empty; otherwise a key with the greatest count, and no later key
      ties with it. */
  ghost predicate ReportsMax(t: Tally, r: string) {
    && (r == "" <==> t.keys == [])
    && (t.keys != [] ==> r in t.counts && forall k :: k in t.counts ==> t.counts[k] <= t.counts[r])
    && (forall i, j :: 0 <= i < j < |t.keys| && t.keys[i] == r ==> Get(t, t.keys[j]) < Get(t, r))
  }

  /** `mostActiveDay` / `mostAddedEmoji` are the reported maximum. */
  lemma ArgMaxSpec(t: Tally)
    requires Valid(t) && "" !in t.counts
    ensures ReportsMax(t, ArgMax(t))
  {
    ReduceFromMax(t.keys, t, "");
    var r := ArgMax(t);
    forall k | k in t.counts ensures t.counts[k] <= t.counts[r] {
      var j :| 0 <= j < |t.keys| && t.keys[j] == k;
    }
  }
}
