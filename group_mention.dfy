/** The group-mention modal's submission: filter the member rows by team, track and
    member type (`'all'` selects everything), mention the survivors, and compose the post. */
module GroupMention {
  import opened Common

  /** The wildcard selector value. */
  const All: string := "all"

  /** A member row. Team and track come from LEFT JOINs and may be null. */
  datatype Member = Member(
    name: string,
    slackId: string,
    teamName: Option<string>,
    trackName: Option<string>,
    memberType: string)

  /** `rows.filter(p)` */
  function Filter(rows: seq<Member>, p: Member -> bool): (r: seq<Member>)
    ensures |r| <= |rows|
    ensures forall i :: 0 <= i < |r| ==> p(r[i]) && r[i] in rows
    ensures forall i :: 0 <= i < |rows| && p(rows[i]) ==> rows[i] in r
  {
    if rows == [] then []
    else (if p(rows[0]) then [rows[0]] else []) + Filter(rows[1..], p)
  }

  /** `toSlackMentions`: `<@slackId>` per row, in row order. */
  function ToSlackMentions(rows: seq<Member>): (r: seq<string>)
    ensures |r| == |rows|
    ensures forall i :: 0 <= i < |rows| ==> r[i] == "<@" + rows[i].slackId + ">"
  {
    if rows == [] then [] else ["<@" + rows[0].slackId + ">"] + ToSlackMentions(rows[1..])
  }

  /** The branch selection of `getMentionTargetMembers`, with the `.rows` throw of the
      filtered branches set aside: seven branches, the first that applies wins. */
  function MentionTargets(rows: seq<Member>, team: string, track: string, memberType: string): (r: seq<string>)
    ensures |r| <= |rows|
    ensures forall i :: 0 <= i < |r| ==> exists j :: 0 <= j < |rows| && r[i] == "<@" + rows[j].slackId + ">"
  {
    var kept :=
      if track == All && team == All && memberType == All then rows
      else if team == All && memberType == All then
        Filter(rows, (m: Member) => m.trackName == Some(track))
      else if track == All && memberType == All then
        Filter(rows, (m: Member) => m.teamName == Some(team))
      else if track == All then
        Filter(rows, (m: Member) => m.teamName == Some(team) && m.memberType == memberType)
      else if team == All then
        Filter(rows, (m: Member) => m.trackName == Some(track) && m.memberType == memberType)
      else if memberType == All then
        Filter(rows, (m: Member) => m.teamName == Some(team) && m.trackName == Some(track))
      else
        Filter(rows, (m: Member) => m.teamName == Some(team) && m.memberType == memberType && m.trackName == Some(track));
    MentionsFromRows(kept, rows);
    ToSlackMentions(kept)
  }

  /** Mentioning rows taken from `rows` mentions members of `rows`. */
  lemma MentionsFromRows(kept: seq<Member>, rows: seq<Member>)
    requires forall k :: 0 <= k < |kept| ==> kept[k] in rows
    ensures forall i :: 0 <= i < |kept| ==>
      exists j :: 0 <= j < |rows| && ToSlackMentions(kept)[i] == "<@" + rows[j].slackId + ">"
  {
    var ms := ToSlackMentions(kept);
    forall i | 0 <= i < |kept|
      ensures exists j :: 0 <= j < |rows| && ms[i] == "<@" + rows[j].slackId + ">"
    {
      var j :| 0 <= j < |rows| && rows[j] == kept[i];
      assert ms[i] == "<@" + rows[j].slackId + ">";
    }
  }

  /** The one rule the branches spell out: each selector that is not `'all'` must equal its field. */
  predicate Matches(m: Member, team: string, track: string, memberType: string) {
    && (team == All || m.teamName == Some(team))
    && (track == All || m.trackName == Some(track))
    && (memberType == All || m.memberType == memberType)
  }

  /** The rule as a filter. */
  function Rule(team: string, track: string, memberType: string): Member -> bool {
    (m: Member) => Matches(m, team, track, memberType)
  }

  /** The targets under that rule. */
  function IntendedTargets(rows: seq<Member>, team: string, track: string, memberType: string): seq<string> {
    ToSlackMentions(Filter(rows, Rule(team, track, memberType)))
  }

  /** Filters that agree on every row give the same rows. */
  lemma {:induction false} FilterExt(rows: seq<Member>, p: Member -> bool, q: Member -> bool)
    requires forall i :: 0 <= i < |rows| ==> p(rows[i]) == q(rows[i])
    ensures Filter(rows, p) == Filter(rows, q)
  {
    if rows != [] {
      FilterExt(rows[1..], p, q);
    }
  }

  /** Six of the seven branches compute the rule; only track = team = 'all' with a
      member type falls into the `track === 'all'` branch, which then also demands
      `teamName === 'all'`. */
  lemma BranchesFollowRule(rows: seq<Member>, team: string, track: string, memberType: string)
    ensures !(track == All && team == All && memberType != All) ==>
      MentionTargets(rows, team, track, memberType) == IntendedTargets(rows, team, track, memberType)
    ensures track == All && team == All && memberType != All ==>
      MentionTargets(rows, team, track, memberType) ==
        ToSlackMentions(Filter(rows, (m: Member) => m.teamName == Some(All) && m.memberType == memberType))
  {
    var rule := Rule(team, track, memberType);
    if track == All && team == All && memberType == All {
      FilterExt(rows, (m: Member) => true, rule);
      FilterAll(rows);
    } else if team == All && memberType == All {
      FilterExt(rows, (m: Member) => m.trackName == Some(track), rule);
    } else if track == All && memberType == All {
      FilterExt(rows, (m: Member) => m.teamName == Some(team), rule);
    } else if track == All {
      if team != All {
        FilterExt(rows, (m: Member) => m.teamName == Some(team) && m.memberType == memberType, rule);
      }
    } else if team == All {
      FilterExt(rows, (m: Member) => m.trackName == Some(track) && m.memberType == memberType, rule);
    } else if memberType == All {
      FilterExt(rows, (m: Member) => m.teamName == Some(team) && m.trackName == Some(track), rule);
    } else {
      FilterExt(rows, (m: Member) => m.teamName == Some(team) && m.memberType == memberType && m.trackName == Some(track), rule);
    }
  }

  lemma {:induction false} FilterAll(rows: seq<Member>)
    ensures Filter(rows, (m: Member) => true) == rows
  {
    if rows != [] {
      FilterAll(rows[1..]);
    }
  }

  /** The branch selection alone, with the `.rows` throw of the filtered branches set
      aside: the modal's default state (all tracks, all teams, regular members) selects
      nobody in a workspace whose regular members all belong to real teams. As written
      that selection never gets this far, since `HandleSubmission` reports the error
      first; the defect shows once that throw is fixed. */
  lemma DefaultSelectionMissesMembers()
    ensures MentionTargets(DefaultCase(), All, All, "regular") == []
    ensures IntendedTargets(DefaultCase(), All, All, "regular") == ["<@U01>"]
  {
    var rows := DefaultCase();
    assert rows[1..] == [];
    var asWritten := (m: Member) => m.teamName == Some(All) && m.memberType == "regular";
    assert !asWritten(rows[0]);
    assert Filter(rows, asWritten) == Filter(rows[1..], asWritten);
    var rule := Rule(All, All, "regular");
    assert rule(rows[0]);
    assert Filter(rows, rule) == [rows[0]] + Filter(rows[1..], rule);
    assert Filter(rows, rule) == rows;
    assert ToSlackMentions(rows) == ["<@" + rows[0].slackId + ">"];
    assert rows[0].slackId == "U01";
    assert "<@" + "U01" + ">" == "<@U01>";
    assert IntendedTargets(rows, All, All, "regular") == ToSlackMentions(Filter(rows, rule));
  }

  /** One regular member who belongs to a real team and track. */
  function DefaultCase(): seq<Member> {
    [Member("kim", "U01", Some("business"), Some("frontend"), "regular")]
  }

  /** `pos` places each element of `a` in `b`, at strictly increasing positions. */
  ghost predicate Embeds<T>(pos: seq<nat>, a: seq<T>, b: seq<T>) {
    && |pos| == |a|
    && (forall i :: 0 <= i < |pos| ==> pos[i] < |b| && a[i] == b[pos[i]])
    && (forall i, j :: 0 <= i < j < |pos| ==> pos[i] < pos[j])
  }

  /** `b` holds the elements of `a` in order. */
  ghost predicate IsSubsequence<T>(a: seq<T>, b: seq<T>) {
    exists pos :: Embeds(pos, a, b)
  }

  function Shifted(pos: seq<nat>): (r: seq<nat>)
    ensures |r| == |pos| && forall i :: 0 <= i < |pos| ==> r[i] == pos[i] + 1
  {
    seq(|pos|, k requires 0 <= k < |pos| => pos[k] + 1)
  }

  lemma EmbedsSkip<T>(pos: seq<nat>, a: seq<T>, b: seq<T>, x: T)
    requires Embeds(pos, a, b)
    ensures Embeds(Shifted(pos), a, [x] + b)
  {
  }

  lemma EmbedsBoth<T>(pos: seq<nat>, a: seq<T>, b: seq<T>, x: T)
    requires Embeds(pos, a, b)
    ensures Embeds([0] + Shifted(pos), [x] + a, [x] + b)
  {
  }

  /** Rows kept by `p` are a subsequence of the rows kept by a weaker `q`. */
  lemma {:induction false} Embedding(rows: seq<Member>, p: Member -> bool, q: Member -> bool) returns (pos: seq<nat>)
    requires forall i :: 0 <= i < |rows| && p(rows[i]) ==> q(rows[i])
    ensures Embeds(pos, Filter(rows, p), Filter(rows, q))
  {
    if rows == [] {
      pos := [];
    } else {
      var x := rows[0];
      assert forall i :: 0 <= i < |rows[1..]| ==> rows[1..][i] == rows[i + 1];
      var rest := Embedding(rows[1..], p, q);
      var fp, fq := Filter(rows[1..], p), Filter(rows[1..], q);
      assert Filter(rows, p) == (if p(x) then [x] else []) + fp;
      assert Filter(rows, q) == (if q(x) then [x] else []) + fq;
      if p(x) {
        assert q(rows[0]);
        EmbedsBoth(rest, fp, fq, x);
        pos := [0] + Shifted(rest);
      } else if q(x) {
        EmbedsSkip(rest, fp, fq, x);
        pos := Shifted(rest);
      } else {
        assert [] + fp == fp && [] + fq == fq;
        pos := rest;
      }
    }
  }

  /** Mapping rows to mentions keeps an embedding. */
  lemma MentionsEmbed(pos: seq<nat>, a: seq<Member>, b: seq<Member>)
    requires Embeds(pos, a, b)
    ensures Embeds(pos, ToSlackMentions(a), ToSlackMentions(b))
  {
    var ma, mb := ToSlackMentions(a), ToSlackMentions(b);
    forall i | 0 <= i < |pos|
      ensures pos[i] < |mb| && ma[i] == mb[pos[i]]
    {
      assert a[i] == b[pos[i]];
    }
  }

  /** Setting any one selector to something other than `'all'` can only drop
      mentions: the result is a subsequence of the result with that selector `'all'`. */
  lemma NarrowingIsSubsequence(rows: seq<Member>, team: string, track: string, memberType: string)
    ensures IsSubsequence(IntendedTargets(rows, team, track, memberType), IntendedTargets(rows, All, track, memberType))
    ensures IsSubsequence(IntendedTargets(rows, team, track, memberType), IntendedTargets(rows, team, All, memberType))
    ensures IsSubsequence(IntendedTargets(rows, team, track, memberType), IntendedTargets(rows, team, track, All))
  {
    var narrow := Rule(team, track, memberType);
    var wide1 := Rule(All, track, memberType);
    var wide2 := Rule(team, All, memberType);
    var wide3 := Rule(team, track, All);
    var pos1 := Embedding(rows, narrow, wide1);
    MentionsEmbed(pos1, Filter(rows, narrow), Filter(rows, wide1));
    var pos2 := Embedding(rows, narrow, wide2);
    MentionsEmbed(pos2, Filter(rows, narrow), Filter(rows, wide2));
    var pos3 := Embedding(rows, narrow, wide3);
    MentionsEmbed(pos3, Filter(rows, narrow), Filter(rows, wide3));
  }

  /** A filter keeps exactly the rows satisfying `p`, in order: it embeds in the
      rows at precisely the positions where `p` holds. */
  lemma {:induction false} FilterPositions(rows: seq<Member>, p: Member -> bool) returns (pos: seq<nat>)
    ensures Embeds(pos, Filter(rows, p), rows)
    ensures forall i :: 0 <= i < |rows| ==> (p(rows[i]) <==> i in pos)
  {
    if rows == [] {
      pos := [];
    } else {
      var x, tail := rows[0], rows[1..];
      var rest := FilterPositions(tail, p);
      assert Filter(rows, p) == (if p(x) then [x] else []) + Filter(tail, p);
      assert [x] + tail == rows;
      var moved := Shifted(rest);
      if p(x) {
        EmbedsBoth(rest, Filter(tail, p), tail, x);
        pos := [0] + moved;
      } else {
        EmbedsSkip(rest, Filter(tail, p), tail, x);
        assert [] + Filter(tail, p) == Filter(tail, p);
        pos := moved;
      }
      forall i | 0 <= i < |rows|
        ensures p(rows[i]) <==> i in pos
      {
        ShiftedHas(rest, i);
        if i > 0 {
          assert rows[i] == tail[i - 1];
        }
      }
    }
  }

  lemma ShiftedHas(pos: seq<nat>, i: nat)
    ensures i in Shifted(pos) <==> i > 0 && i - 1 in pos
  {
    if i > 0 && i - 1 in pos {
      var k :| 0 <= k < |pos| && pos[k] == i - 1;
      assert Shifted(pos)[k] == i;
    }
  }

  /** The mentions keep row order and duplicates: one per matching row, the i-th for
      the i-th matching row, and the matching rows are exactly the rows at the
      positions where the rule holds, in the order they were read. */
  lemma TargetsFollowRows(rows: seq<Member>, team: string, track: string, memberType: string)
    ensures var kept := Filter(rows, Rule(team, track, memberType));
      && (exists pos :: Embeds(pos, kept, rows) &&
            forall i :: 0 <= i < |rows| ==> (Matches(rows[i], team, track, memberType) <==> i in pos))
      && |IntendedTargets(rows, team, track, memberType)| == |kept|
      && (forall i :: 0 <= i < |kept| ==> IntendedTargets(rows, team, track, memberType)[i] == "<@" + kept[i].slackId + ">")
  {
    var pos := FilterPositions(rows, Rule(team, track, memberType));
  }

  // ---- The post ----

  /** `${sel === 'all' ? '' : `${sel}${suffix}`}` */
  function Label(selector: string, suffix: string): (text: string)
    ensures text == "" <==> selector == All || selector + suffix == ""
  {
    if selector == All then "" else selector + suffix
  }

  /** `xs.join(sep)` */
  function Join(xs: seq<string>, sep: string): string {
    if xs == [] then ""
    else if |xs| == 1 then xs[0]
    else xs[0] + sep + Join(xs[1..], sep)
  }

  /** The text posted to the thread for the selected members: the fixed "nobody"
      text exactly when there are none, otherwise a text holding every mention. */
  function GroupMentionPost(userId: string, team: string, track: string, memberType: string, mentions: seq<string>): (post: string)
    ensures post == NobodyText <==> mentions == []
    ensures forall i :: 0 <= i < |mentions| ==> Includes(post, mentions[i])
    ensures mentions != [] ==> Includes(post, "\n" + Join(mentions, ", ") + "\n")
    ensures mentions != [] ==> Includes(post, "<@" + userId + ">")
    ensures mentions != [] && team != All ==> Includes(post, team + "팀")
    ensures mentions != [] && track != All ==> Includes(post, track + "트랙")
    ensures mentions != [] && memberType != All ==> Includes(post, memberType)
  {
    if |mentions| > 0 then
      var greeting := "<@" + userId + ">";
      var teamText, trackText, typeText := Label(team, "팀"), Label(track, "트랙"), Label(memberType, "");
      var body := "\n" + Join(mentions, ", ") + "\n";
      var closing := "확인 부탁드립니다 :dancing_toad:";
      var post := greeting + "님의  " + teamText + " " + trackText + " " + typeText + " 단체멘션!" + body + closing;
      assert post[0] == '<' != NobodyText[0];
      PostPieces(greeting, "님의  ", teamText, " ", trackText, " ", typeText, " 단체멘션!", body, closing);
      assert memberType != All ==> typeText == memberType;
      assert forall i :: 0 <= i < |mentions| ==> Includes(post, mentions[i]) by {
        forall i | 0 <= i < |mentions|
          ensures Includes(post, mentions[i])
        {
          JoinIncludes(mentions, ", ", i);
          IncludesWithin("\n", Join(mentions, ", "), "\n", mentions[i]);
          IncludesTrans(post, body, mentions[i]);
        }
      }
      post
    else NobodyText
  }

  /** Each piece a text is assembled from is found in it. */
  lemma PostPieces(g: string, a: string, x1: string, b: string, x2: string, c: string, x3: string, d: string, y: string, e: string)
    ensures var t := g + a + x1 + b + x2 + c + x3 + d + y + e;
      Includes(t, g) && Includes(t, x1) && Includes(t, x2) && Includes(t, x3) && Includes(t, y)
  {
    var t := g + a + x1 + b + x2 + c + x3 + d + y + e;
    var i1 := |g + a|;
    var i2 := i1 + |x1 + b|;
    var i3 := i2 + |x2 + c|;
    var iy := i3 + |x3 + d|;
    assert t[0..|g|] == g;
    assert t[i1..i1 + |x1|] == x1;
    assert t[i2..i2 + |x2|] == x2;
    assert t[i3..i3 + |x3|] == x3;
    assert t[iy..iy + |y|] == y;
    IncludesAt(t, g, 0);
    IncludesAt(t, x1, i1);
    IncludesAt(t, x2, i2);
    IncludesAt(t, x3, i3);
    IncludesAt(t, y, iy);
  }

  /** The post when no member matches. */
  const NobodyText: string := "해당하는 인원이 없습니다."

  /** Every element of a join appears in it. */
  lemma {:induction false} JoinIncludes(xs: seq<string>, sep: string, i: nat)
    requires i < |xs|
    ensures Includes(Join(xs, sep), xs[i])
    decreases |xs|
  {
    if |xs| == 1 || i == 0 {
      var rest := if |xs| == 1 then "" else sep + Join(xs[1..], sep);
      assert Join(xs, sep) == "" + xs[0] + rest;
      IncludesAt(xs[0], xs[0], 0);
      IncludesWithin("", xs[0], rest, xs[0]);
    } else {
      JoinIncludes(xs[1..], sep, i - 1);
      assert xs[1..][i - 1] == xs[i];
      assert Join(xs, sep) == xs[0] + sep + Join(xs[1..], sep) + "";
      IncludesWithin(xs[0] + sep, Join(xs[1..], sep), "", xs[i]);
    }
  }

  // ---- The submission handler ----

  /** What the handler does: post in the thread, or answer the submitter with the error. */
  datatype Submission = Posted(text: string) | ErrorReported

  /** `getMentionTargetMembers` as it runs: the filtered branches hand `toSlackMentions`
      a plain array, whose missing `rows` property makes `.map` throw; only the
      all/all/all branch, which passes the query result itself, returns mentions. */
  function GetMentionTargetMembers(rows: seq<Member>, team: string, track: string, memberType: string): (r: Option<seq<string>>)
    ensures r.Some? <==> team == All && track == All && memberType == All
  {
    if track == All && team == All && memberType == All then Some(ToSlackMentions(rows)) else None
  }

  /** The view-submission handler as written. */
  function HandleSubmission(userId: string, rows: seq<Member>, team: string, track: string, memberType: string): (r: Submission)
    ensures r.Posted? <==> team == All && track == All && memberType == All
    ensures r.Posted? ==> (r.text == NobodyText <==> rows == [])
    ensures r.Posted? ==> forall i :: 0 <= i < |rows| ==> Includes(r.text, "<@" + rows[i].slackId + ">")
  {
    match GetMentionTargetMembers(rows, team, track, memberType)
    case None => ErrorReported
    case Some(mentions) => Posted(GroupMentionPost(userId, team, track, memberType, mentions))
  }

  /** The handler with the one selection rule applied to the rows. */
  function IntendedSubmission(userId: string, rows: seq<Member>, team: string, track: string, memberType: string): Submission {
    Posted(GroupMentionPost(userId, team, track, memberType, IntendedTargets(rows, team, track, memberType)))
  }

  /** As written, the handler agrees with the rule only when every selector is `'all'`;
      any narrower selection, the modal's default included, ends in the error reply. */
  lemma SubmissionAsWritten(userId: string, rows: seq<Member>, team: string, track: string, memberType: string)
    ensures team == All && track == All && memberType == All ==>
      HandleSubmission(userId, rows, team, track, memberType) == IntendedSubmission(userId, rows, team, track, memberType)
    ensures !(team == All && track == All && memberType == All) ==>
      HandleSubmission(userId, rows, team, track, memberType) == ErrorReported
  {
    if team == All && track == All && memberType == All {
      BranchesFollowRule(rows, team, track, memberType);
    }
  }

  /** The intended handler always posts, and the post names exactly the matching rows:
      the fixed "nobody" text when none match, otherwise a text holding each mention. */
  lemma IntendedSubmissionPosts(userId: string, rows: seq<Member>, team: string, track: string, memberType: string)
    ensures IntendedSubmission(userId, rows, team, track, memberType).Posted?
    ensures var text := IntendedSubmission(userId, rows, team, track, memberType).text;
      && (text == NobodyText <==> Filter(rows, Rule(team, track, memberType)) == [])
      && (forall i :: 0 <= i < |Filter(rows, Rule(team, track, memberType))| ==>
            Includes(text, "<@" + Filter(rows, Rule(team, track, memberType))[i].slackId + ">"))
  {
  }
}
