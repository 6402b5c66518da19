/** The `투표 a~b` handler: finds the first `a~b` in the message, checks the range,
    and reacts with the number emojis `a` to `b` in order. */
module Vote {
  import opened Common

  /** `numberEmojis`: nine names, for the numbers 1 to 9. */
  const NumberEmojis: seq<string> := ["one", "two", "three", "four", "five", "six", "seven", "eight", "nine"]

  /** `\d` of a JavaScript regular expression without the `u` flag. */
  predicate IsDigit(c: char) {
    '0' <= c <= '9'
  }

  predicate AllDigits(s: string) {
    forall i :: 0 <= i < |s| ==> IsDigit(s[i])
  }

  /** The longest run of digits at the start of `s` (what a greedy `\d+` takes). */
  function DigitRun(s: string): (r: string)
    ensures |r| <= |s| && r == s[..|r|] && AllDigits(r)
    ensures |r| < |s| ==> !IsDigit(s[|r|])
  {
    if s == [] || !IsDigit(s[0]) then [] else [s[0]] + DigitRun(s[1..])
  }

  /** `Number(ds)` for a string of decimal digits; leading zeros are ignored. */
  function DigitsValue(ds: string): nat
    requires AllDigits(ds)
  {
    if ds == [] then 0
    else DigitsValue(ds[..|ds| - 1]) * 10 + (ds[|ds| - 1] as int - '0' as int)
  }

  /** Decimal digits of `n`, without leading zeros. */
  function NatToString(n: nat): (s: string)
    ensures |s| > 0 && AllDigits(s)
  {
    var d := [(('0' as int) + n % 10) as char];
    if n < 10 then d else NatToString(n / 10) + d
  }

  lemma {:induction false} DigitsRoundTrip(n: nat)
    ensures DigitsValue(NatToString(n)) == n
  {
    var s := NatToString(n);
    if n >= 10 {
      DigitsRoundTrip(n / 10);
      assert s[..|s| - 1] == NatToString(n / 10);
    }
  }

  /** `s` holds, from position `i`, the digits `a`, a `~` and the digits `b`, and `b`
      is followed by the end of the text or a non-digit: what `/\d+~\d+/` matches
      at `i`, its second `\d+` being greedy. */
  predicate RangeAt(s: string, i: nat, a: string, b: string) {
    var j := i + |a|;
    && |a| > 0 && AllDigits(a) && |b| > 0 && AllDigits(b)
    && j + 1 + |b| <= |s|
    && s[i..j] == a && s[j] == '~' && s[j + 1..j + 1 + |b|] == b
    && (j + 1 + |b| == |s| || !IsDigit(s[j + 1 + |b|]))
  }

  /** The match of `/\d+~\d+/` that starts at `i`, as its two digit strings. */
  function MatchAt(s: string, i: nat): (r: Option<(string, string)>)
    requires i <= |s|
    ensures r.Some? ==> RangeAt(s, i, r.value.0, r.value.1)
  {
    var a := DigitRun(s[i..]);
    var j := i + |a|;
    if a == [] || j >= |s| || s[j] != '~' then None
    else
      var b := DigitRun(s[j + 1..]);
      if b == [] then None else Some((a, b))
  }

  /** The leftmost match at or after position `i`: none when no position has one,
      else the match at the first position that has one. */
  function FirstMatch(s: string, i: nat): (r: Option<(string, string)>)
    requires i <= |s|
    ensures r.None? <==> forall k :: i <= k < |s| ==> MatchAt(s, k).None?
    ensures r.Some? ==>
      exists k :: i <= k < |s| && MatchAt(s, k) == r && forall j :: i <= j < k ==> MatchAt(s, j).None?
    decreases |s| - i
  {
    if i == |s| then None
    else if MatchAt(s, i).Some? then MatchAt(s, i)
    else FirstMatch(s, i + 1)
  }

  /** `text.match(/\d+~\d+/)` then `rangeMatch[0].split('~').map(Number)`. Both parts
      are digit strings, so `Number` never yields NaN here, and for a digit string it
      compares with 1 and 10 exactly as its integer value does. */
  function RangeMatch(text: string): (r: Option<(nat, nat)>)
    ensures r.None? <==> forall k :: 0 <= k < |text| ==> MatchAt(text, k).None?
    ensures r.Some? ==>
      exists k :: 0 <= k < |text| && MatchAt(text, k).Some? &&
        r.value == (DigitsValue(MatchAt(text, k).value.0), DigitsValue(MatchAt(text, k).value.1)) &&
        forall j :: 0 <= j < k ==> MatchAt(text, j).None?
  {
    match FirstMatch(text, 0)
    case None => None
    case Some((a, b)) => Some((DigitsValue(a), DigitsValue(b)))
  }

  /** The guard `start < 1 || end > 10 || start > end`. */
  predicate Rejected(start: nat, end: nat) {
    start < 1 || end > 10 || start > end
  }

  /** What the handler does with a message. */
  datatype VoteOutcome =
    | Ignored                                   // a subtype, or no `a~b` in the text
    | RangeError                                // posts '1~9 사이의 숫자 범위를 입력해주세요.'
    | Reacted(names: seq<string>, failed: bool) // reactions added in order; `failed` when one was refused

  function Min(a: nat, b: nat): nat {
    if a < b then a else b
  }

  /** What the handler does with a range `start~end` it found. */
  function RangeReply(start: nat, end: nat): (o: VoteOutcome)
    ensures o != Ignored
    ensures o == RangeError <==> Rejected(start, end)
    ensures o.Reacted? ==> (o.failed <==> end == 10) && |o.names| == Min(end, 9) - start + 1
    ensures o.Reacted? ==> forall k :: 0 <= k < |o.names| ==> o.names[k] == NumberEmojis[start - 1 + k]
  {
    if Rejected(start, end) then RangeError
    else Reacted(NumberEmojis[start - 1..Min(end, |NumberEmojis|)], end > |NumberEmojis|)
  }

  /** The reactions loop for an accepted range, with `reactions.add` refusing an
      undefined name (any other reaction is taken to be added). */
  method AddReactions(start: nat, end: nat) returns (names: seq<string>, failed: bool)
    requires !Rejected(start, end)
    ensures names == NumberEmojis[start - 1..Min(end, |NumberEmojis|)]
    ensures failed <==> end > |NumberEmojis|
  {
    names, failed := [], false;
    var i := start - 1;
    while i < end
      invariant start - 1 <= i <= end && i <= |NumberEmojis|
      invariant names == NumberEmojis[start - 1..i]
    {
      if i >= |NumberEmojis| {
        // numberEmojis[i] is undefined: the call throws and the catch ends the loop
        failed := true;
        break;
      }
      names := names + [NumberEmojis[i]];
      i := i + 1;
    }
  }

  /** The handler on a message with `subtype` and `text`. */
  method HandleVote(subtype: Option<string>, text: Option<string>) returns (o: VoteOutcome)
    ensures subtype.Some? ==> o == Ignored
    ensures subtype.None? && RangeMatch(text.GetOr("")).None? ==> o == Ignored
    ensures subtype.None? && RangeMatch(text.GetOr("")).Some? ==>
      o == RangeReply(RangeMatch(text.GetOr("")).value.0, RangeMatch(text.GetOr("")).value.1)
  {
    if subtype.Some? {
      return Ignored;
    }
    var rangeMatch := RangeMatch(text.GetOr(""));
    if rangeMatch.None? {
      return Ignored;
    }
    var (start, end) := rangeMatch.value;
    if Rejected(start, end) {
      return RangeError;
    }
    var names, failed := AddReactions(start, end);
    o := Reacted(names, failed);
  }

  /** A digit run stops at the first non-digit. */
  lemma {:induction false} DigitRunOf(ds: string, rest: string)
    requires |ds| > 0 && AllDigits(ds)
    requires rest == [] || !IsDigit(rest[0])
    ensures DigitRun(ds + rest) == ds
  {
    if |ds| > 1 {
      assert (ds + rest)[1..] == ds[1..] + rest;
      DigitRunOf(ds[1..], rest);
      assert ds == [ds[0]] + ds[1..];
    } else if rest != [] {
      assert (ds + rest)[1..] == rest;
    } else {
      assert (ds + rest)[1..] == [];
    }
  }

  /** No match starts inside a prefix without digits. */
  lemma {:induction false} FirstMatchSkips(s: string, prefix: string, i: nat)
    requires i <= |prefix| <= |s| && prefix == s[..|prefix|]
    requires forall k :: 0 <= k < |prefix| ==> !IsDigit(prefix[k])
    ensures FirstMatch(s, i) == FirstMatch(s, |prefix|)
    decreases |prefix| - i
  {
    if i < |prefix| {
      assert s[i..][0] == prefix[i];
      assert DigitRun(s[i..]) == [];
      FirstMatchSkips(s, prefix, i + 1);
    }
  }

  /** A range written at `i` is the match at `i`: the match is unique. */
  lemma MatchAtComplete(s: string, i: nat, a: string, b: string)
    requires RangeAt(s, i, a, b)
    ensures MatchAt(s, i) == Some((a, b))
  {
    var j := i + |a|;
    var e := j + 1 + |b|;
    assert s[i..] == a + s[j..];
    DigitRunOf(a, s[j..]);
    assert s[j + 1..] == b + s[e..];
    DigitRunOf(b, s[e..]);
  }

  /** Digits, `~`, digits, then text not starting with a digit: a range at the end of the prefix. */
  lemma WrittenRangeAt(prefix: string, a: string, b: string, suffix: string)
    requires |a| > 0 && AllDigits(a) && |b| > 0 && AllDigits(b)
    requires suffix == [] || !IsDigit(suffix[0])
    ensures RangeAt(prefix + a + "~" + b + suffix, |prefix|, a, b)
  {
    var s := prefix + a + "~" + b + suffix;
    var p := |prefix|;
    assert s[p..p + |a|] == a;
    assert s[p + |a|] == '~';
    assert s[p + |a| + 1..p + |a| + 1 + |b|] == b;
    assert p + |a| + 1 + |b| < |s| ==> s[p + |a| + 1 + |b|] == suffix[0];
  }

  /** Parsing a written range gives the range back, whatever digit-free text is
      before it and whatever text not starting with a digit follows it. */
  lemma RangeMatchRoundTrip(prefix: string, start: nat, end: nat, suffix: string)
    requires forall k :: 0 <= k < |prefix| ==> !IsDigit(prefix[k])
    requires suffix == [] || !IsDigit(suffix[0])
    ensures RangeMatch(prefix + NatToString(start) + "~" + NatToString(end) + suffix) == Some((start, end))
  {
    var a, b := NatToString(start), NatToString(end);
    var s := prefix + a + "~" + b + suffix;
    assert s[..|prefix|] == prefix;
    FirstMatchSkips(s, prefix, 0);
    WrittenRangeAt(prefix, a, b, suffix);
    MatchAtComplete(s, |prefix|, a, b);
    assert FirstMatch(s, |prefix|) == Some((a, b));
    DigitsRoundTrip(start);
    DigitsRoundTrip(end);
  }

  /** The message `!투표 1~10`, written as prefix, range and suffix. */
  lemma TenVoteText()
    ensures "!투표 " + NatToString(1) + "~" + NatToString(10) + "" == "!투표 1~10"
  {
    assert NatToString(1) == "1";
    assert NatToString(10) == "10";
  }

  /** As written, `10` passes the guard although only nine emojis exist: the tenth
      `reactions.add` gets no name and the loop ends after `nine`. */
  lemma TenPassesGuard()
    ensures RangeMatch("!투표 1~10") == Some((1, 10))
    ensures RangeReply(1, 10) == Reacted(NumberEmojis, true)
  {
    TenParses();
    TenReacts();
  }

  lemma TenReacts()
    ensures RangeReply(1, 10) == Reacted(NumberEmojis, true)
  {
    assert NumberEmojis[0..9] == NumberEmojis;
  }

  lemma TenParses()
    ensures RangeMatch("!투표 1~10") == Some((1, 10))
  {
    var prefix := "!투표 ";
    assert forall k :: 0 <= k < |prefix| ==> !IsDigit(prefix[k]);
    RangeMatchRoundTrip(prefix, 1, 10, "");
    TenVoteText();
  }

  /** The guard the reply text `1~9` asks for. */
  predicate RejectedIntended(start: nat, end: nat) {
    start < 1 || end > 9 || start > end
  }

  /** The handler's reply with the intended guard. */
  function RangeReplyIntended(start: nat, end: nat): VoteOutcome {
    if RejectedIntended(start, end) then RangeError else Reacted(NumberEmojis[start - 1..end], false)
  }

  /** Under the intended guard no reaction is ever refused: every accepted range
      reacts with exactly `end - start + 1` emojis; it differs from the code only on
      ranges ending at 10, which it rejects. */
  lemma IntendedRangeFits(start: nat, end: nat)
    ensures RangeReplyIntended(start, end).Reacted? ==>
      !RangeReplyIntended(start, end).failed && |RangeReplyIntended(start, end).names| == end - start + 1
    ensures RangeReplyIntended(start, end) != RangeReply(start, end) <==> (end == 10 && 1 <= start <= 10)
  {
  }
}
