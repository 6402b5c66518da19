/** The `!상태창` handler as the code runs it: mutable accumulators updated in
    nested loops, with an early exit wherever an exception would reach the `catch`. */
module StatusBoardHandler {
  import opened Common
  import opened Tallies
  import Channels
  import opened StatusModel

  /** The user's root messages of one channel, the `mainMessages.forEach` loop. */
  method TallyRoots(st0: Stats, u: string, channelId: string, main: seq<Message>, day: DayOf)
    returns (ok: bool, st: Stats)
    ensures ok <==> VisitRoots(st0, u, channelId, main, day).Some?
    ensures ok ==> VisitRoots(st0, u, channelId, main, day) == Some(st)
  {
    st := st0;
    var i := 0;
    while i < |main|
      invariant 0 <= i <= |main|
      invariant VisitRoots(st0, u, channelId, main, day) == VisitRoots(st, u, channelId, main[i..], day)
    {
      assert main[i..][0] == main[i] && main[i..][1..] == main[i + 1..];
      var message := main[i];
      if ByUser(message, u) {
        var date := DayKey(message, day);
        if date.None? {
          return false, st;
        }
        st := st.(activeDays := Bump(st.activeDays, date.value));
        var rxs := ReactionsOf(message);
        ghost var before := st;
        var j := 0;
        while j < |rxs|
          invariant 0 <= j <= |rxs|
          invariant TallyReactions(before, channelId, message, rxs) == TallyReactions(st, channelId, message, rxs[j..])
        {
          assert rxs[j..][0] == rxs[j] && rxs[j..][1..] == rxs[j + 1..];
          var reaction := rxs[j];
          if reaction.count.Some? {
            st := st.(reactionsReceived := st.reactionsReceived + reaction.count.value);
          }
          if reaction.count.Some? && reaction.count.value > st.mostReacted.count {
            st := st.(mostReacted := MostReacted(reaction.count.value, Permalink(channelId, message.ts)));
          }
          j := j + 1;
        }
      }
      if MentionsUser(message, u) {
        st := st.(mentionsReceived := st.mentionsReceived + 1);
      }
      i := i + 1;
    }
    ok := true;
  }

  /** The thread loop of one channel: one `conversations.replies` call per thread root. */
  method TallyThreads(st0: Stats, u: string, channelId: string, main: seq<Message>, w: Workspace)
    returns (ok: bool, st: Stats)
    ensures ok <==> VisitThreads(st0, u, channelId, main, w).Some?
    ensures ok ==> VisitThreads(st0, u, channelId, main, w) == Some(st)
  {
    st := st0;
    var i := 0;
    while i < |main|
      invariant 0 <= i <= |main|
      invariant VisitThreads(st0, u, channelId, main, w) == VisitThreads(st, u, channelId, main[i..], w)
    {
      assert main[i..][0] == main[i] && main[i..][1..] == main[i + 1..];
      var message := main[i];
      if IsThreadRoot(message) {
        var threadResponse := w.replies(channelId, message.threadTs.value);
        if threadResponse.Failed? {
          return false, st;
        }
        if threadResponse.body.Some? {
          var userComments := CountByUser(Tail(threadResponse.body.value), u);
          if userComments > 0 {
            st := st.(totalMessages := st.totalMessages + userComments,
                      threadsParticipated := st.threadsParticipated + 1);
          }
        }
      }
      i := i + 1;
    }
    ok := true;
  }

  /** The `reactionHistory.items?.forEach` loop. */
  method TallyItems(st0: Stats, items: seq<ReactionItem>) returns (st: Stats)
    ensures st == VisitItems(st0, items)
  {
    st := st0;
    var i := 0;
    while i < |items|
      invariant 0 <= i <= |items|
      invariant VisitItems(st0, items) == VisitItems(st, items[i..])
    {
      assert items[i..][0] == items[i] && items[i..][1..] == items[i + 1..];
      if items[i].message.Some? {
        st := st.(reactionsAdded := st.reactionsAdded + 1);
        var rxs := ReactionsOf(items[i].message.value);
        ghost var added := st;
        ghost var before := st.emojiCount;
        var j := 0;
        while j < |rxs|
          invariant 0 <= j <= |rxs|
          invariant st == added.(emojiCount := st.emojiCount)
          invariant CountEmoji(before, rxs) == CountEmoji(st.emojiCount, rxs[j..])
        {
          assert rxs[j..][0] == rxs[j] && rxs[j..][1..] == rxs[j + 1..];
          if rxs[j].name.Some? && rxs[j].name.value != "" {
            st := st.(emojiCount := Bump(st.emojiCount, rxs[j].name.value));
          }
          j := j + 1;
        }
        assert rxs[j..] == [];
      }
      i := i + 1;
    }
  }

  /** The handler: what it would post, or `Aborted` when it reaches its `catch`. */
  method RunStatusBoard(u: string, w: Workspace, day: DayOf) returns (r: Outcome<Report>)
    ensures r == StatusBoard(u, w, day)
  {
    var channelIds := Channels.GetAllChannelIds(w.channelPages);
    var st := Initial;
    var c := 0;
    while c < |channelIds|
      invariant 0 <= c <= |channelIds|
      invariant VisitChannels(Initial, u, channelIds, w, day) == VisitChannels(st, u, channelIds[c..], w, day)
    {
      assert channelIds[c..][0] == channelIds[c] && channelIds[c..][1..] == channelIds[c + 1..];
      var channelId := channelIds[c];
      var response := w.history(channelId);
      if response.Failed? {
        return Aborted;
      }
      var main := response.body.GetOr([]);
      var ok;
      st, c := st.(totalMessages := st.totalMessages + CountByUser(main, u)), c + 1;
      ok, st := TallyRoots(st, u, channelId, main, day);
      if !ok {
        return Aborted;
      }
      ok, st := TallyThreads(st, u, channelId, main, w);
      if !ok {
        return Aborted;
      }
    }
    if w.reactionList.Failed? {
      return Aborted;
    }
    st := TallyItems(st, w.reactionList.body.GetOr([]));
    var mostAddedEmoji := ArgMax(st.emojiCount);
    var mostActiveDay := ArgMax(st.activeDays);
    r := Done(Report(st, mostActiveDay, mostAddedEmoji));
  }
}
