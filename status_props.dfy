/** What the status board's figures mean, stated over the messages, threads and
    reaction items the Slack API returned, and proved about the fold in StatusModel. */
module StatusProps {
  import opened Common
  import opened Tallies
  import Channels
  import opened StatusModel

  function Max(a: nat, b: nat): nat {
    if a < b then b else a
  }

  // ---- Measures over one reaction list and one channel's messages ----

  /** Sum of the defined `count`s. */
  function ReceivedOn(rxs: seq<Reaction>): nat {
    if rxs == [] then 0 else rxs[0].count.GetOr(0) + ReceivedOn(rxs[1..])
  }

  /** Largest defined `count`, 0 when there is none. */
  function MaxOn(rxs: seq<Reaction>): nat {
    if rxs == [] then 0 else Max(rxs[0].count.GetOr(0), MaxOn(rxs[1..]))
  }

  /** Reactions received on the user's messages of `ms`. */
  function ReceivedIn(ms: seq<Message>, u: string): nat {
    if ms == [] then 0
    else (if ByUser(ms[0], u) then ReceivedOn(ReactionsOf(ms[0])) else 0) + ReceivedIn(ms[1..], u)
  }

  /** Largest single reaction count on the user's messages of `ms`. */
  function MaxIn(ms: seq<Message>, u: string): nat {
    if ms == [] then 0
    else Max(if ByUser(ms[0], u) then MaxOn(ReactionsOf(ms[0])) else 0, MaxIn(ms[1..], u))
  }

  /** Messages of `ms`, by anyone, whose text holds `<@u>`. */
  function MentionCount(ms: seq<Message>, u: string): nat {
    if ms == [] then 0 else (if MentionsUser(ms[0], u) then 1 else 0) + MentionCount(ms[1..], u)
  }

  /** The user's messages of `ms` whose day is `d`. */
  function DayCount(ms: seq<Message>, u: string, d: string, day: DayOf): nat {
    if ms == [] then 0
    else (if ByUser(ms[0], u) && DayKey(ms[0], day) == Some(d) then 1 else 0) + DayCount(ms[1..], u, d, day)
  }

  /** Every message of the user has a day (else `toISOString` throws). */
  predicate DaysDefined(ms: seq<Message>, u: string, day: DayOf) {
    forall i :: 0 <= i < |ms| && ByUser(ms[i], u) ==> DayKey(ms[i], day).Some?
  }

  /** Thread roots among `ms`. */
  function ThreadRoots(ms: seq<Message>): nat {
    if ms == [] then 0 else (if IsThreadRoot(ms[0]) then 1 else 0) + ThreadRoots(ms[1..])
  }

  /** Replies by the user under root `m`, the root itself (index 0) left out. */
  function RepliesBy(channelId: string, m: Message, u: string, w: Workspace): nat {
    if !IsThreadRoot(m) then 0
    else match w.replies(channelId, m.threadTs.value)
      case Answered(Some(rs)) => CountByUser(Tail(rs), u)
      case _ => 0
  }

  /** Replies by the user under all thread roots of `ms`. */
  function ReplyCount(channelId: string, ms: seq<Message>, u: string, w: Workspace): nat {
    if ms == [] then 0 else RepliesBy(channelId, ms[0], u, w) + ReplyCount(channelId, ms[1..], u, w)
  }

  /** Thread roots of `ms` under which the user replied: at most one per root. */
  function ThreadsJoined(channelId: string, ms: seq<Message>, u: string, w: Workspace): (n: nat)
    ensures n <= ThreadRoots(ms)
    ensures n <= ReplyCount(channelId, ms, u, w)
  {
    if ms == [] then 0
    else (if RepliesBy(channelId, ms[0], u, w) > 0 then 1 else 0) + ThreadsJoined(channelId, ms[1..], u, w)
  }

  /** Every thread root's `conversations.replies` call returns. */
  predicate RepliesRead(channelId: string, ms: seq<Message>, w: Workspace) {
    forall i :: 0 <= i < |ms| && IsThreadRoot(ms[i]) ==> !w.replies(channelId, ms[i].threadTs.value).Failed?
  }

  /** `mr` is the largest reaction count of one of the user's messages in `ms`, with
      that message's link, and no earlier message of the user reaches that count
      (the strict `>` keeps the first message to reach the maximum). */
  ghost predicate PointsAt(mr: MostReacted, u: string, channelId: string, ms: seq<Message>) {
    exists i :: 0 <= i < |ms| && ByUser(ms[i], u) &&
      mr == MostReacted(MaxOn(ReactionsOf(ms[i])), Permalink(channelId, ms[i].ts)) &&
      (forall j :: 0 <= j < i && ByUser(ms[j], u) ==> MaxOn(ReactionsOf(ms[j])) < mr.count)
  }

  // ---- One reaction list ----

  lemma {:induction false} TallyReactionsEffect(st: Stats, channelId: string, m: Message, rxs: seq<Reaction>)
    ensures var r := TallyReactions(st, channelId, m, rxs);
      && r == st.(reactionsReceived := r.reactionsReceived, mostReacted := r.mostReacted)
      && r.reactionsReceived == st.reactionsReceived + ReceivedOn(rxs)
      && r.mostReacted.count == Max(st.mostReacted.count, MaxOn(rxs))
      && (r.mostReacted.count == st.mostReacted.count ==> r.mostReacted == st.mostReacted)
      && (r.mostReacted != st.mostReacted ==> r.mostReacted.link == Permalink(channelId, m.ts))
    decreases |rxs|
  {
    if rxs != [] {
      TallyReactionsEffect(TallyReaction(st, channelId, m, rxs[0]), channelId, m, rxs[1..]);
    }
  }

  // ---- The root-message loop of one channel ----

  /** The loop aborts exactly when one of the user's messages has no day. */
  lemma {:induction false} VisitRootsAborts(st: Stats, u: string, channelId: string, ms: seq<Message>, day: DayOf)
    ensures VisitRoots(st, u, channelId, ms, day).None? <==> !DaysDefined(ms, u, day)
    decreases |ms|
  {
    if ms != [] {
      var r0 := VisitRoot(st, u, channelId, ms[0], day);
      assert r0.None? <==> ByUser(ms[0], u) && DayKey(ms[0], day).None?;
      if r0.Some? {
        VisitRootsAborts(r0.value, u, channelId, ms[1..], day);
        assert DaysDefined(ms, u, day) <==> DaysDefined(ms[1..], u, day) by {
          if DaysDefined(ms[1..], u, day) {
            forall i | 0 <= i < |ms| && ByUser(ms[i], u) ensures DayKey(ms[i], day).Some? {
              if i > 0 { assert ms[i] == ms[1..][i - 1]; }
            }
          }
          if DaysDefined(ms, u, day) {
            forall i | 0 <= i < |ms[1..]| && ByUser(ms[1..][i], u) ensures DayKey(ms[1..][i], day).Some? {
              assert ms[1..][i] == ms[i + 1];
            }
          }
        }
      }
    }
  }

  /** What the root-message loop adds to each accumulator. */
  lemma {:induction false} VisitRootsEffect(st: Stats, u: string, channelId: string, ms: seq<Message>, day: DayOf)
    requires Valid(st.activeDays)
    requires VisitRoots(st, u, channelId, ms, day).Some?
    ensures var r := VisitRoots(st, u, channelId, ms, day).value;
      && r.totalMessages == st.totalMessages
      && r.reactionsAdded == st.reactionsAdded
      && r.emojiCount == st.emojiCount
      && r.threadsParticipated == st.threadsParticipated
      && Valid(r.activeDays)
      && Total(r.activeDays) == Total(st.activeDays) + CountByUser(ms, u)
      && r.reactionsReceived == st.reactionsReceived + ReceivedIn(ms, u)
      && r.mentionsReceived == st.mentionsReceived + MentionCount(ms, u)
      && r.mostReacted.count == Max(st.mostReacted.count, MaxIn(ms, u))
      && (r.mostReacted.count == st.mostReacted.count ==> r.mostReacted == st.mostReacted)
      && (r.mostReacted != st.mostReacted ==> PointsAt(r.mostReacted, u, channelId, ms))
    decreases |ms|
  {
    if ms != [] {
      var m := ms[0];
      var st1 := VisitRoot(st, u, channelId, m, day).value;
      if ByUser(m, u) {
        var d := DayKey(m, day).value;
        var bumped := st.(activeDays := Bump(st.activeDays, d));
        BumpTotal(st.activeDays, d);
        TallyReactionsEffect(bumped, channelId, m, ReactionsOf(m));
      }
      VisitRootsEffect(st1, u, channelId, ms[1..], day);
      var r := VisitRoots(st, u, channelId, ms, day).value;
      if r.mostReacted != st.mostReacted {
        if r.mostReacted != st1.mostReacted {
          PointsAtLater(r.mostReacted, u, channelId, ms);
        } else {
          assert ms[0] == m && ByUser(m, u);
        }
      }
    }
  }

  /** A message found after the first one is still the first to reach its count,
      when the first message is not one of the user's or has fewer reactions. */
  lemma PointsAtLater(mr: MostReacted, u: string, channelId: string, ms: seq<Message>)
    requires ms != [] && PointsAt(mr, u, channelId, ms[1..])
    requires ByUser(ms[0], u) ==> MaxOn(ReactionsOf(ms[0])) < mr.count
    ensures PointsAt(mr, u, channelId, ms)
  {
    var rest := ms[1..];
    var i :| 0 <= i < |rest| && ByUser(rest[i], u) &&
      mr == MostReacted(MaxOn(ReactionsOf(rest[i])), Permalink(channelId, rest[i].ts)) &&
      (forall j :: 0 <= j < i && ByUser(rest[j], u) ==> MaxOn(ReactionsOf(rest[j])) < mr.count);
    assert rest[i] == ms[i + 1];
    forall j | 0 <= j < i + 1 && ByUser(ms[j], u)
      ensures MaxOn(ReactionsOf(ms[j])) < mr.count
    {
      if j > 0 {
        assert ms[j] == rest[j - 1];
      }
    }
  }

  /** Per day: the histogram counts the user's messages of that day. */
  lemma {:induction false} VisitRootsDays(st: Stats, u: string, channelId: string, ms: seq<Message>, day: DayOf, d: string)
    requires VisitRoots(st, u, channelId, ms, day).Some?
    ensures Get(VisitRoots(st, u, channelId, ms, day).value.activeDays, d) == Get(st.activeDays, d) + DayCount(ms, u, d, day)
    decreases |ms|
  {
    if ms != [] {
      var m := ms[0];
      var st1 := VisitRoot(st, u, channelId, m, day).value;
      if ByUser(m, u) {
        var bumped := st.(activeDays := Bump(st.activeDays, DayKey(m, day).value));
        TallyReactionsEffect(bumped, channelId, m, ReactionsOf(m));
      }
      VisitRootsDays(st1, u, channelId, ms[1..], day, d);
    }
  }

  // ---- The thread loop of one channel ----

  lemma {:induction false} VisitThreadsAborts(st: Stats, u: string, channelId: string, ms: seq<Message>, w: Workspace)
    ensures VisitThreads(st, u, channelId, ms, w).None? <==> !RepliesRead(channelId, ms, w)
    decreases |ms|
  {
    if ms != [] {
      var r0 := VisitThread(st, u, channelId, ms[0], w);
      if r0.Some? {
        VisitThreadsAborts(r0.value, u, channelId, ms[1..], w);
        assert RepliesRead(channelId, ms, w) <==> RepliesRead(channelId, ms[1..], w) by {
          if RepliesRead(channelId, ms[1..], w) {
            forall i | 0 <= i < |ms| && IsThreadRoot(ms[i])
              ensures !w.replies(channelId, ms[i].threadTs.value).Failed?
            {
              if i > 0 { assert ms[i] == ms[1..][i - 1]; }
            }
          }
          if RepliesRead(channelId, ms, w) {
            forall i | 0 <= i < |ms[1..]| && IsThreadRoot(ms[1..][i])
              ensures !w.replies(channelId, ms[1..][i].threadTs.value).Failed?
            {
              assert ms[1..][i] == ms[i + 1];
            }
          }
        }
      } else {
        assert !RepliesRead(channelId, ms, w) by { assert IsThreadRoot(ms[0]); }
      }
    }
  }

  /** The thread loop adds the user's replies to the message total and one per
      thread the user replied in; nothing else changes. */
  lemma {:induction false} VisitThreadsEffect(st: Stats, u: string, channelId: string, ms: seq<Message>, w: Workspace)
    requires VisitThreads(st, u, channelId, ms, w).Some?
    ensures VisitThreads(st, u, channelId, ms, w).value ==
      st.(totalMessages := st.totalMessages + ReplyCount(channelId, ms, u, w),
          threadsParticipated := st.threadsParticipated + ThreadsJoined(channelId, ms, u, w))
    decreases |ms|
  {
    if ms != [] {
      VisitThreadsEffect(VisitThread(st, u, channelId, ms[0], w).value, u, channelId, ms[1..], w);
    }
  }

  // ---- All channels ----

  /** What one channel adds to the report's figures. */
  datatype Contribution = Contribution(
    roots: nat, replies: nat, received: nat, maxReaction: nat, mentions: nat, threads: nat)

  function ChannelContribution(channelId: string, u: string, w: Workspace): Contribution {
    var main := Body(w.history(channelId));
    Contribution(CountByUser(main, u), ReplyCount(channelId, main, u, w), ReceivedIn(main, u),
                 MaxIn(main, u), MentionCount(main, u), ThreadsJoined(channelId, main, u, w))
  }

  /** The contributions of `ids` added up (the largest reaction count is a maximum). */
  function Combined(ids: seq<string>, u: string, w: Workspace): Contribution {
    if ids == [] then Contribution(0, 0, 0, 0, 0, 0)
    else
      var c := ChannelContribution(ids[0], u, w);
      var rest := Combined(ids[1..], u, w);
      Contribution(c.roots + rest.roots, c.replies + rest.replies, c.received + rest.received,
                   Max(c.maxReaction, rest.maxReaction), c.mentions + rest.mentions, c.threads + rest.threads)
  }

  /** The user's messages of day `d` over the channels `ids`. */
  function DaysTotal(ids: seq<string>, u: string, d: string, w: Workspace, day: DayOf): nat {
    if ids == [] then 0 else DayCount(Body(w.history(ids[0])), u, d, day) + DaysTotal(ids[1..], u, d, w, day)
  }

  /** Nothing in a channel throws: its history call returns, each of the user's
      messages has a day, and each thread root's replies call returns. */
  predicate ChannelReadable(channelId: string, u: string, w: Workspace, day: DayOf) {
    && w.history(channelId).Answered?
    && DaysDefined(Body(w.history(channelId)), u, day)
    && RepliesRead(channelId, Body(w.history(channelId)), w)
  }

  lemma VisitChannelAborts(st: Stats, u: string, channelId: string, w: Workspace, day: DayOf)
    ensures VisitChannel(st, u, channelId, w, day).None? <==> !ChannelReadable(channelId, u, w, day)
  {
    if w.history(channelId).Answered? {
      var main := Body(w.history(channelId));
      var st1 := st.(totalMessages := st.totalMessages + CountByUser(main, u));
      VisitRootsAborts(st1, u, channelId, main, day);
      var r := VisitRoots(st1, u, channelId, main, day);
      if r.Some? {
        VisitThreadsAborts(r.value, u, channelId, main, w);
      }
    }
  }

  /** One unreadable channel, wherever it is, aborts the whole report. */
  lemma {:induction false} VisitChannelsAborts(st: Stats, u: string, ids: seq<string>, w: Workspace, day: DayOf)
    ensures VisitChannels(st, u, ids, w, day).None? <==>
      exists k :: 0 <= k < |ids| && !ChannelReadable(ids[k], u, w, day)
    decreases |ids|
  {
    if ids != [] {
      VisitChannelAborts(st, u, ids[0], w, day);
      var r0 := VisitChannel(st, u, ids[0], w, day);
      if r0.Some? {
        VisitChannelsAborts(r0.value, u, ids[1..], w, day);
        if exists k :: 0 <= k < |ids| && !ChannelReadable(ids[k], u, w, day) {
          var k :| 0 <= k < |ids| && !ChannelReadable(ids[k], u, w, day);
          assert k > 0;
          assert ids[1..][k - 1] == ids[k];
        }
        if exists k :: 0 <= k < |ids[1..]| && !ChannelReadable(ids[1..][k], u, w, day) {
          var k :| 0 <= k < |ids[1..]| && !ChannelReadable(ids[1..][k], u, w, day);
          assert ids[k + 1] == ids[1..][k];
        }
      } else {
        assert !ChannelReadable(ids[0], u, w, day);
      }
    }
  }

  /** What one channel adds to each accumulator. */
  lemma VisitChannelEffect(st: Stats, u: string, channelId: string, w: Workspace, day: DayOf)
    requires Valid(st.activeDays)
    requires VisitChannel(st, u, channelId, w, day).Some?
    ensures var r := VisitChannel(st, u, channelId, w, day).value;
      var c := ChannelContribution(channelId, u, w);
      && r.totalMessages == st.totalMessages + c.roots + c.replies
      && Valid(r.activeDays)
      && Total(r.activeDays) == Total(st.activeDays) + c.roots
      && r.reactionsReceived == st.reactionsReceived + c.received
      && r.mostReacted.count == Max(st.mostReacted.count, c.maxReaction)
      && (r.mostReacted.count == st.mostReacted.count ==> r.mostReacted == st.mostReacted)
      && (r.mostReacted != st.mostReacted ==> PointsAt(r.mostReacted, u, channelId, Body(w.history(channelId))))
      && r.mentionsReceived == st.mentionsReceived + c.mentions
      && r.threadsParticipated == st.threadsParticipated + c.threads
      && r.reactionsAdded == st.reactionsAdded
      && r.emojiCount == st.emojiCount
  {
    var main := Body(w.history(channelId));
    var st1 := st.(totalMessages := st.totalMessages + CountByUser(main, u));
    VisitRootsEffect(st1, u, channelId, main, day);
    var st2 := VisitRoots(st1, u, channelId, main, day).value;
    VisitThreadsEffect(st2, u, channelId, main, w);
    assert VisitChannel(st, u, channelId, w, day) == VisitThreads(st2, u, channelId, main, w);
  }

  /** What the channel loop adds to each accumulator. */
  lemma {:induction false} VisitChannelsEffect(st: Stats, u: string, ids: seq<string>, w: Workspace, day: DayOf)
    requires Valid(st.activeDays)
    requires VisitChannels(st, u, ids, w, day).Some?
    ensures var r := VisitChannels(st, u, ids, w, day).value;
      var c := Combined(ids, u, w);
      && r.totalMessages == st.totalMessages + c.roots + c.replies
      && Valid(r.activeDays)
      && Total(r.activeDays) == Total(st.activeDays) + c.roots
      && r.reactionsReceived == st.reactionsReceived + c.received
      && r.mostReacted.count == Max(st.mostReacted.count, c.maxReaction)
      && (r.mostReacted.count == st.mostReacted.count ==> r.mostReacted == st.mostReacted)
      && (r.mostReacted != st.mostReacted ==>
            exists k :: 0 <= k < |ids| && PointsAt(r.mostReacted, u, ids[k], Body(w.history(ids[k]))) &&
              (forall j :: 0 <= j < k ==> ChannelContribution(ids[j], u, w).maxReaction < r.mostReacted.count))
      && r.mentionsReceived == st.mentionsReceived + c.mentions
      && r.threadsParticipated == st.threadsParticipated + c.threads
      && r.reactionsAdded == st.reactionsAdded
      && r.emojiCount == st.emojiCount
    decreases |ids|
  {
    if ids != [] {
      var st1 := VisitChannel(st, u, ids[0], w, day).value;
      VisitChannelEffect(st, u, ids[0], w, day);
      VisitChannelsEffect(st1, u, ids[1..], w, day);
      var r := VisitChannels(st, u, ids, w, day).value;
      if r.mostReacted != st.mostReacted {
        if r.mostReacted != st1.mostReacted {
          var rest := ids[1..];
          var k :| 0 <= k < |rest| && PointsAt(r.mostReacted, u, rest[k], Body(w.history(rest[k]))) &&
            (forall j :: 0 <= j < k ==> ChannelContribution(rest[j], u, w).maxReaction < r.mostReacted.count);
          assert rest[k] == ids[k + 1];
          assert r.mostReacted.count > st1.mostReacted.count;
          forall j | 0 <= j < k + 1
            ensures ChannelContribution(ids[j], u, w).maxReaction < r.mostReacted.count
          {
            if j > 0 {
              assert ids[j] == rest[j - 1];
            }
          }
        } else {
          assert PointsAt(r.mostReacted, u, ids[0], Body(w.history(ids[0])));
        }
      }
    }
  }

  /** Per day, over the channel loop. */
  lemma {:induction false} VisitChannelsDays(st: Stats, u: string, ids: seq<string>, w: Workspace, day: DayOf, d: string)
    requires VisitChannels(st, u, ids, w, day).Some?
    ensures Get(VisitChannels(st, u, ids, w, day).value.activeDays, d) == Get(st.activeDays, d) + DaysTotal(ids, u, d, w, day)
    decreases |ids|
  {
    if ids != [] {
      var main := Body(w.history(ids[0]));
      var st0 := st.(totalMessages := st.totalMessages + CountByUser(main, u));
      VisitRootsDays(st0, u, ids[0], main, day, d);
      var st1 := VisitRoots(st0, u, ids[0], main, day).value;
      VisitThreadsEffect(st1, u, ids[0], main, w);
      VisitChannelsDays(VisitChannel(st, u, ids[0], w, day).value, u, ids[1..], w, day, d);
    }
  }

  /** A converter that never yields `''` puts no message on day `''`. */
  lemma {:induction false} DayCountNoEmpty(ms: seq<Message>, u: string, day: DayOf)
    requires forall ts :: day(ts) != Some("")
    ensures DayCount(ms, u, "", day) == 0
    decreases |ms|
  {
    if ms != [] {
      DayCountNoEmpty(ms[1..], u, day);
    }
  }

  lemma {:induction false} DaysTotalNoEmpty(ids: seq<string>, u: string, w: Workspace, day: DayOf)
    requires forall ts :: day(ts) != Some("")
    ensures DaysTotal(ids, u, "", w, day) == 0
    decreases |ids|
  {
    if ids != [] {
      DayCountNoEmpty(Body(w.history(ids[0])), u, day);
      DaysTotalNoEmpty(ids[1..], u, w, day);
    }
  }

  // ---- The reaction list ----

  /** `reactions.list` items that carry a message. */
  function ItemsWithMessage(items: seq<ReactionItem>): (n: nat)
    ensures n <= |items|
  {
    if items == [] then 0 else (if items[0].message.Some? then 1 else 0) + ItemsWithMessage(items[1..])
  }

  /** Reactions named `e` (a truthy name) in `rxs`. */
  function NamedCount(rxs: seq<Reaction>, e: string): nat {
    if rxs == [] then 0 else (if rxs[0].name == Some(e) && e != "" then 1 else 0) + NamedCount(rxs[1..], e)
  }

  /** Reactions named `e` on the messages of the items that carry one. */
  function EmojiUses(items: seq<ReactionItem>, e: string): nat {
    if items == [] then 0
    else (match items[0].message case Some(m) => NamedCount(ReactionsOf(m), e) case None => 0)
         + EmojiUses(items[1..], e)
  }

  lemma {:induction false} CountEmojiEffect(t: Tally, rxs: seq<Reaction>, e: string)
    requires Valid(t) && "" !in t.counts
    ensures var r := CountEmoji(t, rxs);
      Valid(r) && "" !in r.counts && Get(r, e) == Get(t, e) + NamedCount(rxs, e)
    decreases |rxs|
  {
    if rxs != [] {
      var t1 := if rxs[0].name.Some? && rxs[0].name.value != "" then Bump(t, rxs[0].name.value) else t;
      CountEmojiEffect(t1, rxs[1..], e);
    }
  }

  /** The item loop counts the items with a message and, per name, their named reactions. */
  lemma {:induction false} VisitItemsEffect(st: Stats, items: seq<ReactionItem>, e: string)
    requires Valid(st.emojiCount) && "" !in st.emojiCount.counts
    ensures var r := VisitItems(st, items);
      && r == st.(reactionsAdded := st.reactionsAdded + ItemsWithMessage(items), emojiCount := r.emojiCount)
      && Valid(r.emojiCount) && "" !in r.emojiCount.counts
      && Get(r.emojiCount, e) == Get(st.emojiCount, e) + EmojiUses(items, e)
    decreases |items|
  {
    if items != [] {
      if items[0].message.Some? {
        CountEmojiEffect(st.emojiCount, ReactionsOf(items[0].message.value), e);
      }
      VisitItemsEffect(VisitItem(st, items[0]), items[1..], e);
    }
  }

  // ---- The whole report ----

  /** Any exception aborts the whole report: a channel's history call, a message of
      the user without a day, a thread's replies call, or the reaction list. A failed
      channel listing does not abort it: it leaves no channels. */
  lemma StatusBoardAborts(u: string, w: Workspace, day: DayOf)
    ensures var ids := Channels.ChannelIds(w.channelPages);
      StatusBoard(u, w, day).Aborted? <==>
        (w.reactionList.Failed? || exists k :: 0 <= k < |ids| && !ChannelReadable(ids[k], u, w, day))
  {
    VisitChannelsAborts(Initial, u, Channels.ChannelIds(w.channelPages), w, day);
  }

  /** The figures of a finished report, over the channels the enumerator returned. */
  lemma StatusBoardFigures(u: string, w: Workspace, day: DayOf)
    requires StatusBoard(u, w, day).Done?
    ensures var ids := Channels.ChannelIds(w.channelPages);
      var rep := StatusBoard(u, w, day).value;
      var st := rep.stats;
      var c := Combined(ids, u, w);
      && st.totalMessages == c.roots + c.replies
      && Valid(st.activeDays)
      && Total(st.activeDays) == c.roots
      && st.reactionsReceived == c.received
      && st.mostReacted.count == c.maxReaction
      && (c.maxReaction == 0 ==> st.mostReacted == MostReacted(0, ""))
      && (c.maxReaction > 0 ==>
            exists k :: 0 <= k < |ids| && PointsAt(st.mostReacted, u, ids[k], Body(w.history(ids[k]))) &&
              (forall j :: 0 <= j < k ==> ChannelContribution(ids[j], u, w).maxReaction < c.maxReaction))
      && st.mentionsReceived == c.mentions
      && st.threadsParticipated == c.threads
      && st.reactionsAdded == ItemsWithMessage(w.reactionList.body.GetOr([]))
      && ReportsMax(st.emojiCount, rep.mostAddedEmoji)
  {
    var ids := Channels.ChannelIds(w.channelPages);
    VisitChannelsEffect(Initial, u, ids, w, day);
    var st := VisitChannels(Initial, u, ids, w, day).value;
    VisitItemsEffect(st, w.reactionList.body.GetOr([]), "");
    ArgMaxSpec(StatusBoard(u, w, day).value.stats.emojiCount);
  }

  /** Per day and per emoji name, the two histograms of a finished report. */
  lemma StatusBoardHistograms(u: string, w: Workspace, day: DayOf, d: string, e: string)
    requires StatusBoard(u, w, day).Done?
    ensures var st := StatusBoard(u, w, day).value.stats;
      && Get(st.activeDays, d) == DaysTotal(Channels.ChannelIds(w.channelPages), u, d, w, day)
      && Get(st.emojiCount, e) == EmojiUses(w.reactionList.body.GetOr([]), e)
  {
    var ids := Channels.ChannelIds(w.channelPages);
    VisitChannelsDays(Initial, u, ids, w, day, d);
    var st := VisitChannels(Initial, u, ids, w, day).value;
    VisitChannelsEffect(Initial, u, ids, w, day);
    VisitItemsEffect(st, w.reactionList.body.GetOr([]), e);
  }

  /** `mostActiveDay` is the busiest day (the later one on a tie), or `''` when the
      user posted no root message; this needs a converter that never yields `''`. */
  lemma StatusBoardBusiestDay(u: string, w: Workspace, day: DayOf)
    requires forall ts :: day(ts) != Some("")
    requires StatusBoard(u, w, day).Done?
    ensures var rep := StatusBoard(u, w, day).value;
      ReportsMax(rep.stats.activeDays, rep.mostActiveDay)
  {
    var ids := Channels.ChannelIds(w.channelPages);
    VisitChannelsEffect(Initial, u, ids, w, day);
    VisitChannelsDays(Initial, u, ids, w, day, "");
    DaysTotalNoEmpty(ids, u, w, day);
    var st := VisitChannels(Initial, u, ids, w, day).value;
    VisitItemsEffect(st, w.reactionList.body.GetOr([]), "");
    ArgMaxSpec(StatusBoard(u, w, day).value.stats.activeDays);
  }
}
