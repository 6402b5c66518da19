/** The `!상태창` (status board) handler as a fold: one step per channel, per root
    message, per reaction, per thread root and per reaction item, in the order the
    handler visits them. `None` is an exception that aborts the whole report. */
module StatusModel {
  import opened Common
  import opened Tallies
  import Channels

  /** A reaction tally on a message; both fields may be missing. */
  datatype Reaction = Reaction(name: Option<string>, count: Option<nat>)

  /** A message of `conversations.history` or `conversations.replies`. */
  datatype Message = Message(
    user: Option<string>,
    ts: Option<string>,
    threadTs: Option<string>,
    text: Option<string>,
    reactions: Option<seq<Reaction>>)

  /** An entry of `reactions.list`; it may carry the message the reaction is on. */
  datatype ReactionItem = ReactionItem(message: Option<Message>)

  /** `{ count, link }` of the message with the largest single reaction count. */
  datatype MostReacted = MostReacted(count: nat, link: string)

  /** The accumulators of the handler (`totalMentionsMade` is never updated and is not kept). */
  datatype Stats = Stats(
    totalMessages: nat,
    activeDays: Tally,
    reactionsReceived: nat,
    reactionsAdded: nat,
    mostReacted: MostReacted,
    emojiCount: Tally,
    threadsParticipated: nat,
    mentionsReceived: nat)

  /** The figures the report posts. */
  datatype Report = Report(stats: Stats, mostActiveDay: string, mostAddedEmoji: string)

  /** What the Slack Web API answers during one report: the `conversations.list`
      replies in request order, the `conversations.history` reply per channel id,
      the `conversations.replies` reply per (channel id, thread ts), and the one
      `reactions.list` reply. A body of `None` is a response without `messages`/`items`. */
  datatype Workspace = Workspace(
    channelPages: seq<Reply<Channels.ChannelPage>>,
    history: string -> Reply<Option<seq<Message>>>,
    replies: (string, string) -> Reply<Option<seq<Message>>>,
    reactionList: Reply<Option<seq<ReactionItem>>>)

  /** `new Date(Number(ts) * 1000).toISOString().split('T')[0]`, with `None` where
      `toISOString` throws (a `ts` that is not a number). */
  type DayOf = string -> Option<string>

  const Initial: Stats := Stats(0, Empty, 0, 0, MostReacted(0, ""), Empty, 0, 0)

  /** `msg.user === userId` */
  predicate ByUser(m: Message, u: string) {
    m.user == Some(u)
  }

  /** `ms.filter(msg => msg.user === userId).length` */
  function CountByUser(ms: seq<Message>, u: string): (n: nat)
    ensures n <= |ms|
  {
    if ms == [] then 0 else (if ByUser(ms[0], u) then 1 else 0) + CountByUser(ms[1..], u)
  }

  /** The day key of a message; a missing `ts` is `Number(undefined)`, i.e. NaN, which throws. */
  function DayKey(m: Message, day: DayOf): Option<string> {
    match m.ts
    case None => None
    case Some(ts) => day(ts)
  }

  /** The link text of `mostReactedMessage`: `ts` with its first `.` removed, or the
      fallback text when `ts` is falsy. */
  function Permalink(channelId: string, ts: Option<string>): (link: string)
    ensures link == NoLinkText <==> ts.None? || ts.value == ""
    ensures ts.Some? && ts.value != "" ==> Includes(link, channelId)
    ensures ts.Some? && ts.value != "" && '.' !in ts.value ==> Includes(link, ts.value)
    ensures ts.Some? && ts.value != "" ==> Includes(link, "/p" + RemoveFirst(ts.value, '.') + "|")
  {
    if ts.Some? && ts.value != "" then
      var id := RemoveFirst(ts.value, '.');
      var link := LinkBase + channelId + "/p" + id + "|바로가기>";
      assert link[0] == '<';
      IncludesMiddle(LinkBase, channelId, "/p" + id + "|바로가기>");
      assert link == LinkBase + channelId + ("/p" + id + "|바로가기>");
      IncludesMiddle(LinkBase + channelId + "/p", id, "|바로가기>");
      assert link == (LinkBase + channelId) + ("/p" + id + "|") + "바로가기>";
      IncludesMiddle(LinkBase + channelId, "/p" + id + "|", "바로가기>");
      link
    else NoLinkText
  }

  /** For a Slack timestamp `seconds.micros`, the link holds `p` followed by the
      digits of both parts with the dot dropped. */
  lemma PermalinkOfTimestamp(channelId: string, seconds: string, micros: string)
    requires '.' !in seconds
    ensures Includes(Permalink(channelId, Some(seconds + "." + micros)), "/p" + (seconds + micros) + "|")
  {
    var ts := seconds + "." + micros;
    assert ts == seconds + ['.'] + micros;
    RemoveFirstSplit(seconds, '.', micros);
    assert ts != "";
  }

  /** The start of a message permalink, up to the channel id. */
  const LinkBase: string := "<https://bcsdlab.slack.com/archives/"

  /** The link text when the message has no timestamp. */
  const NoLinkText: string := "링크를 생성할 수 없습니다."

  /** `<@userId>` */
  function MentionToken(u: string): string {
    "<@" + u + ">"
  }

  /** `typeof message.text === 'string' && message.text.includes(`<@${userId}>`)` */
  predicate MentionsUser(m: Message, u: string) {
    m.text.Some? && Includes(m.text.value, MentionToken(u))
  }

  /** `message.thread_ts && message.thread_ts === message.ts` */
  predicate IsThreadRoot(m: Message) {
    m.threadTs.Some? && m.threadTs.value != "" && m.ts == m.threadTs
  }

  /** `message.reactions || []` as the loop sees it. */
  function ReactionsOf(m: Message): seq<Reaction> {
    m.reactions.GetOr([])
  }

  /** `messages || []` of a history reply, for a channel whose history was read. */
  function Body(r: Reply<Option<seq<Message>>>): seq<Message> {
    match r
    case Answered(Some(ms)) => ms
    case _ => []
  }

  /** One reaction on one of the user's root messages. */
  function TallyReaction(st: Stats, channelId: string, m: Message, rx: Reaction): Stats {
    match rx.count
    case None => st
    case Some(c) =>
      var st1 := st.(reactionsReceived := st.reactionsReceived + c);
      if c > st.mostReacted.count then st1.(mostReacted := MostReacted(c, Permalink(channelId, m.ts)))
      else st1
  }

  /** `message.reactions.forEach(...)` */
  function TallyReactions(st: Stats, channelId: string, m: Message, rxs: seq<Reaction>): (r: Stats)
    ensures r == st.(reactionsReceived := r.reactionsReceived, mostReacted := r.mostReacted)
    ensures st.reactionsReceived <= r.reactionsReceived && st.mostReacted.count <= r.mostReacted.count
    decreases |rxs|
  {
    if rxs == [] then st
    else TallyReactions(TallyReaction(st, channelId, m, rxs[0]), channelId, m, rxs[1..])
  }

  /** The body of `mainMessages.forEach(...)` for one root message. */
  function VisitRoot(st: Stats, u: string, channelId: string, m: Message, day: DayOf): Option<Stats> {
    var mine :=
      if !ByUser(m, u) then Some(st)
      else match DayKey(m, day)
        case None => None
        case Some(d) =>
          Some(TallyReactions(st.(activeDays := Bump(st.activeDays, d)), channelId, m, ReactionsOf(m)));
    match mine
    case None => None
    case Some(st1) =>
      Some(if MentionsUser(m, u) then st1.(mentionsReceived := st1.mentionsReceived + 1) else st1)
  }

  /** `mainMessages.forEach(...)`: it touches only the day histogram, the reactions
      received, the most-reacted record and the mentions, never lowering a figure,
      and counts at most one mention per message. */
  function VisitRoots(st: Stats, u: string, channelId: string, ms: seq<Message>, day: DayOf): (r: Option<Stats>)
    ensures r.Some? ==> r.value == st.(activeDays := r.value.activeDays, reactionsReceived := r.value.reactionsReceived,
                                       mostReacted := r.value.mostReacted, mentionsReceived := r.value.mentionsReceived)
    ensures r.Some? ==> st.reactionsReceived <= r.value.reactionsReceived && st.mostReacted.count <= r.value.mostReacted.count
    ensures r.Some? ==> st.mentionsReceived <= r.value.mentionsReceived <= st.mentionsReceived + |ms|
    decreases |ms|
  {
    if ms == [] then Some(st)
    else match VisitRoot(st, u, channelId, ms[0], day)
      case None => None
      case Some(st1) => VisitRoots(st1, u, channelId, ms[1..], day)
  }

  /** `threadResponse.messages?.slice(1)`: the replies without the root. */
  function Tail(ms: seq<Message>): seq<Message> {
    if ms == [] then [] else ms[1..]
  }

  /** The body of the thread loop for one root message. */
  function VisitThread(st: Stats, u: string, channelId: string, m: Message, w: Workspace): Option<Stats> {
    if !IsThreadRoot(m) then Some(st)
    else match w.replies(channelId, m.threadTs.value)
      case Failed => None
      case Answered(None) => Some(st)
      case Answered(Some(rs)) =>
        var n := CountByUser(Tail(rs), u);
        Some(if n > 0 then st.(totalMessages := st.totalMessages + n,
                               threadsParticipated := st.threadsParticipated + 1)
             else st)
  }

  /** The thread loop: it touches only the message count and the threads count,
      and joins at most one thread per root message. */
  function VisitThreads(st: Stats, u: string, channelId: string, ms: seq<Message>, w: Workspace): (r: Option<Stats>)
    ensures r.Some? ==> r.value == st.(totalMessages := r.value.totalMessages, threadsParticipated := r.value.threadsParticipated)
    ensures r.Some? ==> st.totalMessages <= r.value.totalMessages
    ensures r.Some? ==> st.threadsParticipated <= r.value.threadsParticipated <= st.threadsParticipated + |ms|
    decreases |ms|
  {
    if ms == [] then Some(st)
    else match VisitThread(st, u, channelId, ms[0], w)
      case None => None
      case Some(st1) => VisitThreads(st1, u, channelId, ms[1..], w)
  }

  /** Every running figure of `b` is at least that of `a`. */
  predicate NoFigureLower(a: Stats, b: Stats) {
    && a.totalMessages <= b.totalMessages
    && a.reactionsReceived <= b.reactionsReceived
    && a.mostReacted.count <= b.mostReacted.count
    && a.threadsParticipated <= b.threadsParticipated
    && a.mentionsReceived <= b.mentionsReceived
  }

  /** One channel: its history call, the user's root messages, then its threads. */
  function VisitChannel(st: Stats, u: string, channelId: string, w: Workspace, day: DayOf): (r: Option<Stats>)
    ensures w.history(channelId).Failed? ==> r.None?
    ensures r.Some? ==> r.value.reactionsAdded == st.reactionsAdded && r.value.emojiCount == st.emojiCount
    ensures r.Some? ==> NoFigureLower(st, r.value)
  {
    match w.history(channelId)
    case Failed => None
    case Answered(body) =>
      var main := body.GetOr([]);
      var st1 := st.(totalMessages := st.totalMessages + CountByUser(main, u));
      match VisitRoots(st1, u, channelId, main, day)
      case None => None
      case Some(st2) => VisitThreads(st2, u, channelId, main, w)
  }

  /** The channel loop: it leaves the reaction-history figures alone and never lowers a figure. */
  function VisitChannels(st: Stats, u: string, ids: seq<string>, w: Workspace, day: DayOf): (r: Option<Stats>)
    ensures r.Some? ==> r.value.reactionsAdded == st.reactionsAdded && r.value.emojiCount == st.emojiCount
    ensures r.Some? ==> NoFigureLower(st, r.value)
    decreases |ids|
  {
    if ids == [] then Some(st)
    else match VisitChannel(st, u, ids[0], w, day)
      case None => None
      case Some(st1) => VisitChannels(st1, u, ids[1..], w, day)
  }

  /** `item.message.reactions?.forEach(...)`: one count per reaction with a truthy name. */
  function CountEmoji(t: Tally, rxs: seq<Reaction>): Tally
    decreases |rxs|
  {
    if rxs == [] then t
    else
      var t1 := if rxs[0].name.Some? && rxs[0].name.value != "" then Bump(t, rxs[0].name.value) else t;
      CountEmoji(t1, rxs[1..])
  }

  /** The body of `reactionHistory.items?.forEach(...)` for one item. */
  function VisitItem(st: Stats, item: ReactionItem): Stats {
    match item.message
    case None => st
    case Some(m) =>
      st.(reactionsAdded := st.reactionsAdded + 1,
          emojiCount := CountEmoji(st.emojiCount, ReactionsOf(m)))
  }

  /** `reactionHistory.items?.forEach(...)`: it touches only the reactions added,
      at most one per item, and the emoji histogram. */
  function VisitItems(st: Stats, items: seq<ReactionItem>): (r: Stats)
    ensures r == st.(reactionsAdded := r.reactionsAdded, emojiCount := r.emojiCount)
    ensures st.reactionsAdded <= r.reactionsAdded <= st.reactionsAdded + |items|
    decreases |items|
  {
    if items == [] then st else VisitItems(VisitItem(st, items[0]), items[1..])
  }

  /** The whole handler: channel enumeration, the channel loop, the reaction list,
      then the two argmax reductions. */
  function StatusBoard(u: string, w: Workspace, day: DayOf): (r: Outcome<Report>)
    ensures w.reactionList.Failed? ==> r.Aborted?
    ensures r.Done? ==> r.value.stats.reactionsAdded <= |w.reactionList.body.GetOr([])|
    ensures r.Done? ==> r.value.mostActiveDay == "" || r.value.mostActiveDay in r.value.stats.activeDays.keys
    ensures r.Done? ==> r.value.mostAddedEmoji == "" || r.value.mostAddedEmoji in r.value.stats.emojiCount.keys
  {
    match VisitChannels(Initial, u, Channels.ChannelIds(w.channelPages), w, day)
    case None => Aborted
    case Some(st) =>
      match w.reactionList
      case Failed => Aborted
      case Answered(items) =>
        var fin := VisitItems(st, items.GetOr([]));
        Done(Report(fin, ArgMax(fin.activeDays), ArgMax(fin.emojiCount)))
  }
}
