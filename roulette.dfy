/** The `!룰렛` handler: a process-wide attempt counter per user, and the
    classification of each spin. The three drawn emojis arrive as `emojiText`. */
module Roulette {

  /** The three sevens. */
  const JackpotText: string := ":seven::seven::seven:"

  /** Attempts that still count as official. */
  const OfficialAttempts: nat := 3

  /** The reply to one spin. */
  datatype Spin =
    | Unofficial(attempt: nat)  // '비공식 결과', with the attempt number
    | Jackpot(attempt: nat)     // '당첨', also announced in the main channel with the attempt number
    | Miss(remaining: int)      // '오늘 남은 시도 횟수', i.e. `3 - attempt`

  /** `(attemptCounts[userId] || 0)` */
  function CountOf(counts: map<string, nat>, userId: string): nat {
    if userId in counts then counts[userId] else 0
  }

  /** The reply to the spin that is a user's `attempt`-th. */
  function Classify(attempt: nat, emojiText: string): (s: Spin)
    requires attempt >= 1
    ensures s.Unofficial? <==> attempt > OfficialAttempts
    ensures s.Jackpot? <==> attempt <= OfficialAttempts && emojiText == JackpotText
    ensures (s.Unofficial? || s.Jackpot?) ==> s.attempt == attempt
    ensures s.Miss? ==> s.remaining == OfficialAttempts - attempt && 0 <= s.remaining < OfficialAttempts
  {
    if attempt > OfficialAttempts then Unofficial(attempt)
    else if emojiText == JackpotText then Jackpot(attempt)
    else Miss(OfficialAttempts - attempt)
  }

  /** The module-level `attemptCounts` object. */
  class AttemptCounter {
    var attemptCounts: map<string, nat>

    constructor ()
      ensures attemptCounts == map[]
    {
      attemptCounts := map[];
    }

    /** One `!룰렛` message from `userId`: count it, then classify it. */
    method Roll(userId: string, emojiText: string) returns (s: Spin)
      modifies this
      ensures attemptCounts == old(attemptCounts)[userId := CountOf(old(attemptCounts), userId) + 1]
      ensures s == Classify(attemptCounts[userId], emojiText)
    {
      attemptCounts := attemptCounts[userId := CountOf(attemptCounts, userId) + 1];
      s := Classify(attemptCounts[userId], emojiText);
    }
  }

  /** One attempt: who sent it and what was drawn. */
  datatype Attempt = Attempt(userId: string, emojiText: string)

  /** The counter after a run of attempts. */
  function CountsAfter(counts: map<string, nat>, attempts: seq<Attempt>): map<string, nat>
    decreases |attempts|
  {
    if attempts == [] then counts
    else
      var u := attempts[0].userId;
      CountsAfter(counts[u := CountOf(counts, u) + 1], attempts[1..])
  }

  /** Attempts by `userId` in the run. */
  function AttemptsBy(attempts: seq<Attempt>, userId: string): nat {
    if attempts == [] then 0
    else (if attempts[0].userId == userId then 1 else 0) + AttemptsBy(attempts[1..], userId)
  }

  /** Official (jackpot or miss) replies `userId` gets during the run. */
  function OfficialSpins(counts: map<string, nat>, attempts: seq<Attempt>, userId: string): nat
    decreases |attempts|
  {
    if attempts == [] then 0
    else
      var a := attempts[0];
      var next := counts[a.userId := CountOf(counts, a.userId) + 1];
      (if a.userId == userId && !Classify(next[a.userId], a.emojiText).Unofficial? then 1 else 0)
        + OfficialSpins(next, attempts[1..], userId)
  }

  /** The counter only grows: each user's count rises by exactly their number of attempts. */
  lemma {:induction false} CountsAfterSpec(counts: map<string, nat>, attempts: seq<Attempt>, userId: string)
    ensures CountOf(CountsAfter(counts, attempts), userId) == CountOf(counts, userId) + AttemptsBy(attempts, userId)
    decreases |attempts|
  {
    if attempts != [] {
      var u := attempts[0].userId;
      CountsAfterSpec(counts[u := CountOf(counts, u) + 1], attempts[1..], userId);
    }
  }

  /** Since the counter never resets, a user gets at most three official replies, ever. */
  lemma {:induction false} AtMostThreeOfficial(counts: map<string, nat>, attempts: seq<Attempt>, userId: string)
    ensures OfficialSpins(counts, attempts, userId) +
      (if CountOf(counts, userId) < OfficialAttempts then CountOf(counts, userId) else OfficialAttempts)
      <= OfficialAttempts
    decreases |attempts|
  {
    if attempts != [] {
      var a := attempts[0];
      AtMostThreeOfficial(counts[a.userId := CountOf(counts, a.userId) + 1], attempts[1..], userId);
    }
  }
}
