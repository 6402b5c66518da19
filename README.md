# BCSD_BOT message handlers, modelled in Dafny

BCSD_BOT is a Slack bot. This project models the parts of it that hold real logic:

- **`getAllChannelIds`**: pages through `conversations.list` until the cursor is empty and keeps the channels the bot is a member of. Any failed request makes it return `[]` (module `Channels`).
- **The `!상태창` status board**: for every such channel it reads a week of history and the replies under each thread root, then the user's `reactions.list`. It folds all of this into the weekly statistics:
  - message count;
  - active-day histogram;
  - reactions received and the most-reacted message link;
  - reactions added and the per-emoji histogram;
  - threads joined;
  - mentions received.

  It then picks the busiest day and the most-added emoji with `Object.keys(...).reduce` (modules `StatusModel`, `StatusBoardHandler`, `StatusProps`, with the JavaScript counter object in `Tallies`).

  A failed `conversations.list` request makes `getAllChannelIds` return `[]`, and the board then covers no channels. Any failed request inside the board's `try` aborts it. No partial result is kept. On a tie, the reduce keeps the later key.
- **The `투표 a~b` handler**: takes the first `a~b` in a message, checks the range, and reacts with the number emojis `a`…`b` in order (module `Vote`).
- **The `!룰렛` handler's `attemptCounts`**: a per-user counter that is never reset while the process runs. The first three spins of a user are official (a jackpot on `:seven::seven::seven:`, or a miss with the remaining count). Every later spin is unofficial (module `Roulette`).
- **The group-mention modal**: `getMentionTargetMembers` filters the member rows by team, track and member type, with `'all'` as a wildcard. `toSlackMentions` turns rows into `<@id>`. The view handler posts the result or the "nobody" text (module `GroupMention`).

Slack replies are inputs to the model:

- the channel pages are a sequence of replies consumed in request order;
- history is a function of the channel;
- thread replies are a function of the channel and the thread root's timestamp;
- `reactions.list` is one reply;
- a `Failed` reply is a rejected request.

The `Date`/`toISOString` conversion of a timestamp to a day is a parameter `DayOf`. When it is undefined, the conversion throws.

The status board is written twice:

- as folds (`StatusModel.StatusBoard`), which return `Aborted` where the handler's `try` block throws;
- as loops over the same state (`StatusBoardHandler.RunStatusBoard`), proved equal to the folds.

`StatusProps` then proves what the folds compute, as sums and maxima over the channels.

## Model

| member | source | states |
|---|---|---|
| Channels.GetAllChannelIds | src/routes/event/index.ts:352-377 | The paging loop returns exactly `ChannelIds`: the member ids gathered up to the page with an empty cursor, or `[]` after any failed request |
| Channels.Collect | src/routes/event/index.ts:357-376 | With no reply or a failed first reply nothing is gathered. Every gathered id is a member channel of some answered page |
| Channels.MemberIdsAppend | src/routes/event/index.ts:364-368 | Keeping member channels distributes over concatenation, so page order and order within a page are preserved |
| Channels.MemberIdsExact | src/routes/event/index.ts:365-366 | An id is kept if and only if some channel of the page with that id has `is_member` true |
| Channels.CollectComplete | src/routes/event/index.ts:357-372 | When every page but the last has a cursor, the result is the member ids of all pages in order, and later replies are never read |
| Channels.CollectFailure | src/routes/event/index.ts:373-376 | A failed request, or no reply, after pages with cursors yields `[]`, whatever came before |
| Tallies.Bump | src/routes/event/index.ts:432 | Bumping key `k` raises its count by one and leaves every other key's count. A new key is appended to the key order. Well-formedness is kept |
| Tallies.BumpTotal | src/routes/event/index.ts:432 | Each bump raises the sum of all counts by one |
| Tallies.ArgMaxSpec | src/routes/event/index.ts:491-494 | The reduce from `''` returns `''` exactly for an empty counter. Otherwise it returns a key with the largest count, and every key after it in the order has a smaller count, so a tie goes to the later key |
| Tallies.ArgMax | src/routes/event/index.ts:491-494 | The reduce from `''` returns `''` or one of the counter's keys, and `''` for an empty counter |
| Tallies.ReduceFromMax | src/routes/event/index.ts:491-494 | The invariant of the reduction over any suffix of the keys, from any accumulator |
| Common.RemoveFirst | src/routes/event/index.ts:443 | `replace('.', '')` removes one `.` if present and leaves the text unchanged otherwise |
| Common.RemoveFirstAt | src/routes/event/index.ts:443 | Removing the first `.` at position i leaves the text before and after it |
| Common.RemoveFirstSplit | src/routes/event/index.ts:443 | Removing the first `.` from `a.b`, when `a` has no dot, gives `a` followed by `b` |
| StatusModel.Permalink | src/routes/event/index.ts:443 | The link is the fallback text exactly when `ts` is missing or empty. Otherwise it names the channel and holds `/p`, then `ts` with its first `.` removed, then the separator before the link text |
| StatusModel.PermalinkOfTimestamp | src/routes/event/index.ts:443 | For a Slack timestamp `seconds.micros`, the link holds `/p`, the seconds and the microseconds with the dot dropped, then the separator |
| StatusModel.VisitRoots | src/routes/event/index.ts:428-454 | The message loop changes only the day histogram, reactions received, the most-reacted record and mentions received. None of them goes down, and mentions grow by at most one per message |
| StatusModel.VisitThreads | src/routes/event/index.ts:457-474 | The thread loop changes only the message count and the threads count. Neither goes down, and threads grow by at most one per root message |
| StatusModel.VisitChannel | src/routes/event/index.ts:418-475 | A failed history request aborts the channel. Otherwise the channel leaves the reaction-history figures alone and lowers no running figure |
| StatusModel.VisitChannels | src/routes/event/index.ts:418-475 | The channel loop leaves the reaction-history figures alone and lowers no running figure |
| StatusModel.VisitItems | src/routes/event/index.ts:478-488 | The reaction-history loop changes only reactions added and the emoji histogram, and adds at most one reaction per item |
| StatusModel.StatusBoard | src/routes/event/index.ts:401-517 | A failed `reactions.list` aborts the report. Reactions added are at most the items returned. The busiest day and the most-added emoji are `''` or keys of their histograms |
| StatusBoardHandler.TallyRoots | src/routes/event/index.ts:428-454 | The loop over a channel's messages succeeds exactly when the fold does, with the same statistics |
| StatusBoardHandler.TallyThreads | src/routes/event/index.ts:457-474 | The thread loop succeeds exactly when the fold does, with the same statistics |
| StatusBoardHandler.TallyItems | src/routes/event/index.ts:478-488 | The reaction-history loop computes the fold over the items |
| StatusBoardHandler.RunStatusBoard | src/routes/event/index.ts:401-517 | The whole handler, written as loops over mutable state, equals `StatusBoard`: the same report, or an abort in the same cases |
| StatusProps.TallyReactionsEffect | src/routes/event/index.ts:435-447 | One message's reactions add their defined counts to the received total. The most-reacted record takes the largest count if it beats the old one, with this message's link, and is otherwise unchanged |
| StatusProps.VisitRootsAborts | src/routes/event/index.ts:429-432 | The message loop throws if and only if some message of the user has no day (`toISOString` of an invalid date) |
| StatusProps.VisitRootsEffect | src/routes/event/index.ts:428-454 | Over one channel: the day histogram grows by the user's message count; received reactions by their sum; mentions by the messages, by anyone, holding `<@user>`. The most-reacted record is the maximum. When it changes, it points at the first of the user's messages to reach that count; other fields are untouched |
| StatusProps.VisitRootsDays | src/routes/event/index.ts:431-432 | Each day's count grows by the user's messages on that day |
| StatusProps.VisitThreadsAborts | src/routes/event/index.ts:457-463 | The thread loop throws if and only if a replies request for a thread root fails |
| StatusProps.VisitThreadsEffect | src/routes/event/index.ts:465-472 | The thread loop adds the user's replies, without each root, to the message count and the number of roots they replied under to the threads count, and changes nothing else |
| StatusProps.ThreadsJoined | src/routes/event/index.ts:469-471 | Threads joined are at most the thread roots and at most the user's replies |
| StatusProps.CountEmojiEffect | src/routes/event/index.ts:482-486 | Each named reaction raises its emoji's count by one; unnamed reactions are skipped |
| StatusProps.VisitChannelAborts | src/routes/event/index.ts:418-475 | One channel throws if and only if its history request fails, a message of the user has no day, or a replies request fails |
| StatusProps.VisitChannelsAborts | src/routes/event/index.ts:418-475 | The channel loop throws if and only if some channel throws |
| StatusProps.VisitChannelEffect | src/routes/event/index.ts:418-475 | One channel adds its contribution: root and reply messages, reactions, mentions and threads, with the maximum reaction count |
| StatusProps.VisitChannelsEffect | src/routes/event/index.ts:418-475 | The channel loop adds up the contributions of all channels. A changed most-reacted record points at the first such message of the first channel whose maximum reaches it |
| StatusProps.VisitChannelsDays | src/routes/event/index.ts:429-432 | Each day's count is the user's messages on that day over all channels |
| StatusProps.VisitItemsEffect | src/routes/event/index.ts:479-488 | The reaction history adds the items carrying a message to reactions added, and each emoji's uses to its count |
| StatusProps.StatusBoardAborts | src/routes/event/index.ts:417-516 | The report fails if and only if the reaction history request fails or some member channel throws. A failed channel listing is not a failure: it gives no channels |
| StatusProps.StatusBoardFigures | src/routes/event/index.ts:405-505 | The reported figures are the sums over the member channels. The most-reacted link is `''` when no message of the user has a reaction. Otherwise it points at the first such message with the largest count (channel order, then message order). The most-added emoji is the reported maximum |
| StatusProps.StatusBoardHistograms | src/routes/event/index.ts:431-432 | The day histogram holds, per day, the user's messages on that day. The emoji histogram holds, per emoji, its uses on the reacted messages |
| StatusProps.StatusBoardBusiestDay | src/routes/event/index.ts:494 | The busiest day is the reported maximum of the day histogram |
| Vote.DigitRun | src/routes/event/index.ts:257 | A greedy `\d+` takes the longest run of leading digits |
| Vote.MatchAt | src/routes/event/index.ts:257 | A match at a position is the text there: a digit string, `~`, a digit string, then the end of the text or a non-digit |
| Vote.MatchAtComplete | src/routes/event/index.ts:257 | Whenever the text at a position has that form, the match at that position is exactly those two digit strings |
| Vote.FirstMatch | src/routes/event/index.ts:257 | There is no match exactly when no position has one. Otherwise the result is the match at the leftmost position that has one |
| Vote.RangeMatch | src/routes/event/index.ts:256-260 | No range exactly when no position matches. Otherwise the numeric values of the two digit strings of the leftmost match |
| Vote.DigitsRoundTrip | src/routes/event/index.ts:260 | `Number` of the decimal text of n is n |
| Vote.RangeMatchRoundTrip | src/routes/event/index.ts:256-260 | A message with a range, digit-free text before it, and after it either nothing or text starting with a non-digit, parses back to the range it holds |
| Vote.RangeReply | src/routes/event/index.ts:262-284 | The error reply exactly when the guard rejects the range. Otherwise the names are `numberEmojis[start-1]` onwards, one per number up to `min(end, 9)`, and a reaction fails exactly when `end` is 10 |
| Vote.AddReactions | src/routes/event/index.ts:271-284 | For an accepted range the loop adds the names `start`…`min(end, 9)` in order. It stops on a refused reaction exactly when `end` is beyond nine |
| Vote.HandleVote | src/routes/event/index.ts:252-286 | Messages with a subtype or without `a~b` are ignored. Otherwise the reply is the range error or the reactions for the first range |
| Vote.TenPassesGuard | src/routes/event/index.ts:262-277 | `!투표 1~10` passes the guard, reacts one…nine and then fails on the tenth reaction |
| Vote.IntendedRangeFits | src/routes/event/index.ts:262-277 | With the corrected guard, every accepted range reacts with exactly `end - start + 1` emojis and nothing fails. It differs from the code only for ranges ending at 10 |
| Roulette.Classify | src/routes/event/index.ts:153-180 | Spins after the third are unofficial. Up to the third, a jackpot needs three sevens; a miss reports `3 - attempt` remaining, so 2, 1 or 0. Unofficial spins and jackpots carry the attempt number |
| Roulette.AttemptCounter.Roll | src/routes/event/index.ts:151-180 | A spin raises the user's count by one, leaves every other user's, and is classified by the new count |
| Roulette.CountsAfterSpec | src/routes/event/index.ts:138-151 | After a run of spins, a user's count is the old count plus their spins in the run |
| Roulette.AtMostThreeOfficial | src/routes/event/index.ts:151-180 | However many spins arrive, a user gets at most three official results over the process's lifetime |
| GroupMention.Filter | src/routes/slash/slashMention.ts:122 | A filter keeps at most the rows it got. Each kept row satisfies the predicate, and every row that satisfies it is kept |
| GroupMention.FilterPositions | src/routes/slash/slashMention.ts:122 | The kept rows sit in the input, in order, at exactly the positions where the predicate holds |
| GroupMention.ToSlackMentions | src/routes/slash/slashMention.ts:95-97 | One `<@slackId>` per row, in row order |
| GroupMention.MentionTargets | src/routes/slash/slashMention.ts:116-152 | The seven branches yield at most one mention per row, each the `<@slackId>` of some row |
| GroupMention.BranchesFollowRule | src/routes/slash/slashMention.ts:116-152 | Six of the seven branches keep exactly the rows whose fields equal every selector that is not `'all'`. The case track = team = `'all'` with a member type instead keeps the rows whose team is `'all'` |
| GroupMention.DefaultSelectionMissesMembers | src/routes/slash/slashMention.ts:131-134 | With the modal's initial selection (all, all, regular), a regular member of a real team is left out by the branches but selected by the rule. As written the selection ends in the error reply first, so this shows once the `.rows` throw is fixed |
| GroupMention.TargetsFollowRows | src/routes/slash/slashMention.ts:95-152 | The rule keeps the rows at exactly the positions where they match, in row order with duplicates kept, and mentions them one by one in that order |
| GroupMention.NarrowingIsSubsequence | src/routes/slash/slashMention.ts:116-152 | Narrowing any selector from `'all'` yields a subsequence of the wider result |
| GroupMention.JoinIncludes | src/routes/slash/slashMention.ts:72 | `join(', ')` contains every element |
| GroupMention.Label | src/routes/slash/slashMention.ts:67-69 | A selector's label is empty exactly when the selector is `'all'` (or it and its suffix are both empty) |
| GroupMention.GroupMentionPost | src/routes/slash/slashMention.ts:66-80 | The post is `해당하는 인원이 없습니다.` exactly when there are no mentions. Otherwise it holds the submitter's `<@id>`, the team label `<team>팀` and track label `<track>트랙` when not `'all'`, the member type when not `'all'`, and the mentions joined by `, ` in order between two newlines |
| GroupMention.GetMentionTargetMembers | src/routes/slash/slashMention.ts:116-153 | As written, only the all/all/all call returns mentions. Every filtered branch hands `toSlackMentions` an array and throws |
| GroupMention.HandleSubmission | src/routes/slash/slashMention.ts:56-85 | The handler posts exactly for the all/all/all selection and reports the error otherwise. The post is the "nobody" text exactly when there are no rows, and otherwise contains every row's `<@slackId>` |
| GroupMention.SubmissionAsWritten | src/routes/slash/slashMention.ts:56-85 | The view handler posts the rule's result for all/all/all and answers with the error for every other selection |
| GroupMention.IntendedSubmissionPosts | src/routes/slash/slashMention.ts:64-80 | With the rows filtered by the rule, the handler always posts. The post is the "nobody" text exactly when no row matches, and otherwise contains `<@slackId>` of every matching row |
| Common.IncludesWithin | src/routes/event/index.ts:451 | `includes` still finds a substring after text is added around it |
| Common.Occurrence | src/routes/event/index.ts:451 | What `includes` finds occurs at some position |
| Common.IncludesAt | src/routes/event/index.ts:451 | An occurrence at any position is found by `includes` |

## Left out

- Slack transport, the HTTP router and `ack`/`respond` are out of scope. Each request is a `Reply` given as input, with a fixed order of requests. The request parameters are not modelled: `limit`, `types`, `exclude_archived`, the `oldest` window and `inclusive`.
- `Date.now()` and the one-week window are not modelled. The server decides which messages are in the window, so the model takes the returned history as given.
- `new Date(Number(ts) * 1000).toISOString().split('T')[0]` is not modelled. It is the parameter `DayOf`, and an undefined value means the call throws.
- The roulette's random draw is not modelled: the drawn text is an input. The 800 ms `delay` in the vote loop is left out.
- The wording of the status-board, roulette and vote posts is not modelled, beyond the facts the model returns. The group-mention post is modelled.
- `totalMentionsMade` is declared and never changed, so it is left out.
- StatusProps.StatusBoardBusiestDay: requires that no timestamp maps to the day `''`. `toISOString` never yields an empty date, and the reduce starts from `''`.
- Tallies.ArgMaxSpec: key order is insertion order. JavaScript enumerates integer-like keys (an emoji named `100`, say) first in ascending order, which changes only which key wins a tie.
- Roulette.Classify: the model assumes one spin per user at a time. The jackpot post reads `attemptCounts[userId]` again after awaiting the first jackpot post, so a second spin by the same user handled in between would make it print the later count, while `Jackpot(attempt)` carries the count at classification time.
- Tallies.Bump: every key is an own data property starting from no count. In JavaScript an emoji named `constructor` first reads the inherited `Object` function, so its count becomes a string and `>` against it is false, and a different emoji is reported. An emoji named `__proto__` never becomes an own key, while the model counts it.
- Vote.HandleVote: the `event.text?.trim()` step is left out. It cannot change the first `\d+~\d+` match, whose characters are digits and `~`. The trigger pattern `!?투표!? ` that routes messages to the handler is not modelled.
- Vote.AddReactions: every defined emoji name is assumed accepted by `reactions.add`. A reaction the workspace refuses for other reasons (already added, rate limit) is not modelled.
- `channel.is_member` absent is treated as false, as its truthiness test does.
- Reaction counts are modelled as natural numbers. Slack never sends negative counts.
- The SQL text and the column names are not modelled. The rows are taken to carry the fields the code reads (`slackId`, `teamName`, `trackName`, `memberType`). The `config/mysql` column mapping is not part of this model.
- These handlers are not part of this model: the new-year scheduler, `!회칙`, `!가위바위보`, `!아이스브레이킹`, `!추첨`, the `/멘션` command's modal opening, googleMeet, lecture-notice and bcsdMember.

## Findings

| source | as written | input that shows it | evidently intended | confidence | as-written member | corrected member |
|---|---|---|---|---|---|---|
| src/routes/event/index.ts:262 | The guard rejects only `end > 10`, but `numberEmojis` (line 271) has nine names. `numberEmojis[9]` is undefined, `reactions.add` is refused, and the loop stops after `nine` | `!투표 1~10` | Reject ranges beyond nine, as the error text `1~9` says | not executed | Vote.TenPassesGuard | Vote.IntendedRangeFits |
| src/routes/slash/slashMention.ts:131-134 | With track and team both `'all'` and a member type chosen, the `track === 'all'` branch requires `teamName === 'all'`. This only shows once the `.rows` throw of the next row is fixed; until then the branch ends in the error reply | The modal's initial selection (all, all, regular) with a regular member of team `business` | Every regular member is mentioned | not executed | GroupMention.DefaultSelectionMissesMembers | GroupMention.TargetsFollowRows |
| src/routes/slash/slashMention.ts:95-152 | Every filtered branch passes the filtered array to `toSlackMentions`. That function reads `.rows.map` of its argument, which is undefined for an array, so it throws and the view handler answers `에러 발생` | Any selection other than all/all/all | The filtered rows are mentioned and posted | not executed; `ResultSet`, defined in `config/mysql`, is not part of this model | GroupMention.SubmissionAsWritten | GroupMention.IntendedSubmissionPosts |
