/** `getAllChannelIds`: pages through `conversations.list` and keeps the channels
    the bot is a member of. */
module Channels {
  import opened Common

  /** A channel of the listing; `is_member` may be missing. */
  datatype Channel = Channel(id: string, isMember: Option<bool>)

  /** One `conversations.list` response: its channels and `response_metadata.next_cursor`. */
  datatype ChannelPage = ChannelPage(channels: seq<Channel>, nextCursor: string)

  /** `if (channel.is_member)` */
  predicate InScope(c: Channel) {
    c.isMember == Some(true)
  }

  /** Ids of the member channels of one page, in page order. */
  function MemberIds(cs: seq<Channel>): (ids: seq<string>)
    ensures |ids| <= |cs|
  {
    if cs == [] then []
    else (if InScope(cs[0]) then [cs[0].id] else []) + MemberIds(cs[1..])
  }

  /** The ids gathered from the replies, `None` when a request fails before a page
      with an empty cursor arrives. The i-th reply answers the i-th request, which
      carries the cursor of reply i-1; a request with no reply left counts as failed. */
  function Collect(replies: seq<Reply<ChannelPage>>): (r: Option<seq<string>>)
    ensures replies == [] || replies[0].Failed? ==> r.None?
    ensures r.Some? ==> forall x :: x in r.value ==>
      exists k :: 0 <= k < |replies| && replies[k].Answered? && x in MemberIds(replies[k].body.channels)
  {
    if replies == [] then None
    else match replies[0]
      case Failed => None
      case Answered(p) =>
        if p.nextCursor == "" then Some(MemberIds(p.channels))
        else match Collect(replies[1..])
          case None => None
          case Some(rest) => Some(MemberIds(p.channels) + rest)
  }

  /** What `getAllChannelIds` returns: the gathered ids, or `[]` after any failure. */
  function ChannelIds(replies: seq<Reply<ChannelPage>>): seq<string> {
    Collect(replies).GetOr([])
  }

  /** `acc` put in front of a gathered list; a failure stays a failure. */
  function Prepend(acc: seq<string>, o: Option<seq<string>>): Option<seq<string>> {
    match o
    case None => None
    case Some(rest) => Some(acc + rest)
  }

  /** The loop of `getAllChannelIds`: `do { ...; cursor = next_cursor } while (cursor)`. */
  method GetAllChannelIds(replies: seq<Reply<ChannelPage>>) returns (channelIds: seq<string>)
    ensures channelIds == ChannelIds(replies)
  {
    channelIds := [];
    var k := 0;
    var cursor := "";
    assert replies[k..] == replies;
    assert Collect(replies) == Prepend(channelIds, Collect(replies[k..])) by {
      match Collect(replies) {
        case None =>
        case Some(rest) => assert [] + rest == rest;
      }
    }
    while true
      invariant 0 <= k <= |replies|
      invariant Collect(replies) == Prepend(channelIds, Collect(replies[k..]))
      decreases |replies| - k
    {
      if k == |replies| || replies[k].Failed? {
        return [];
      }
      var response := replies[k].body;
      var i := 0;
      ghost var before := channelIds;
      while i < |response.channels|
        invariant 0 <= i <= |response.channels|
        invariant before + MemberIds(response.channels) == channelIds + MemberIds(response.channels[i..])
      {
        assert response.channels[i..] == [response.channels[i]] + response.channels[i + 1..];
        if InScope(response.channels[i]) {
          channelIds := channelIds + [response.channels[i].id];
        }
        i := i + 1;
      }
      assert response.channels[i..] == [];
      assert channelIds == before + MemberIds(response.channels);
      cursor := response.nextCursor;
      assert replies[k..][1..] == replies[k + 1..];
      k := k + 1;
      if cursor == "" {
        return;
      }
      match Collect(replies[k..]) {
        case None =>
        case Some(rest) => assert before + (MemberIds(response.channels) + rest) == channelIds + rest;
      }
    }
  }

  /** The replies that deliver `pages`, in order, without a failure. */
  function Delivered(pages: seq<ChannelPage>): (rs: seq<Reply<ChannelPage>>)
    ensures |rs| == |pages| && forall i :: 0 <= i < |rs| ==> rs[i] == Answered(pages[i])
  {
    if pages == [] then [] else [Answered(pages[0])] + Delivered(pages[1..])
  }

  /** The member ids of every page, page after page. */
  function AllMemberIds(pages: seq<ChannelPage>): seq<string> {
    if pages == [] then [] else MemberIds(pages[0].channels) + AllMemberIds(pages[1..])
  }

  /** Filtering distributes over concatenation: page order and order within a page are kept. */
  lemma {:induction false} MemberIdsAppend(a: seq<Channel>, b: seq<Channel>)
    ensures MemberIds(a + b) == MemberIds(a) + MemberIds(b)
  {
    if a != [] {
      assert (a + b)[0] == a[0];
      assert (a + b)[1..] == a[1..] + b;
      MemberIdsAppend(a[1..], b);
    } else {
      assert a + b == b;
    }
  }

  /** An id is kept exactly when some channel with that id has `is_member` true. */
  lemma {:induction false} MemberIdsExact(cs: seq<Channel>, id: string)
    ensures id in MemberIds(cs) <==> exists i :: 0 <= i < |cs| && InScope(cs[i]) && cs[i].id == id
  {
    if cs != [] {
      MemberIdsExact(cs[1..], id);
      if exists i :: 0 <= i < |cs| && InScope(cs[i]) && cs[i].id == id {
        var i :| 0 <= i < |cs| && InScope(cs[i]) && cs[i].id == id;
        if i > 0 { assert cs[1..][i - 1] == cs[i]; }
      }
      if exists i :: 0 <= i < |cs[1..]| && InScope(cs[1..][i]) && cs[1..][i].id == id {
        var i :| 0 <= i < |cs[1..]| && InScope(cs[1..][i]) && cs[1..][i].id == id;
        assert cs[i + 1] == cs[1..][i];
      }
    }
  }

  /** When every request succeeds and the last page ends the cursor chain, the result
      is every member id of every page in page order, and no further reply is read. */
  lemma {:induction false} CollectComplete(pages: seq<ChannelPage>, later: seq<Reply<ChannelPage>>)
    requires |pages| > 0 && pages[|pages| - 1].nextCursor == ""
    requires forall i :: 0 <= i < |pages| - 1 ==> pages[i].nextCursor != ""
    ensures ChannelIds(Delivered(pages) + later) == AllMemberIds(pages)
    ensures Collect(Delivered(pages) + later) == Some(AllMemberIds(pages))
  {
    var rs := Delivered(pages) + later;
    assert rs[0] == Answered(pages[0]);
    if |pages| > 1 {
      assert rs[1..] == Delivered(pages[1..]) + later by {
        assert Delivered(pages) == [Answered(pages[0])] + Delivered(pages[1..]);
      }
      CollectComplete(pages[1..], later);
    } else {
      assert AllMemberIds(pages[1..]) == [];
    }
  }

  /** When a request fails (or is never answered) before the cursor chain ends,
      the result is `[]`, not the ids gathered so far. */
  lemma {:induction false} CollectFailure(pages: seq<ChannelPage>, later: seq<Reply<ChannelPage>>)
    requires forall i :: 0 <= i < |pages| ==> pages[i].nextCursor != ""
    requires later == [] || later[0] == Failed
    ensures ChannelIds(Delivered(pages) + later) == []
    ensures Collect(Delivered(pages) + later) == None
  {
    var rs := Delivered(pages) + later;
    if pages != [] {
      assert rs[0] == Answered(pages[0]);
      assert rs[1..] == Delivered(pages[1..]) + later by {
        assert Delivered(pages) == [Answered(pages[0])] + Delivered(pages[1..]);
      }
      CollectFailure(pages[1..], later);
    } else {
      assert rs == later;
    }
  }
}
