/**
 * messenger_zh.go: the Chinese messenger. Same four handlers as the English one,
 * with its own word order, action phrases looked up in two tables, HTML URLs, and
 * a comment abbreviator that reports the dropped bytes in Chinese.
 */
module MessengerZh {
  import opened Wrappers
  import opened Text
  import opened Events
  import opened CommentScan
  import opened Irc
  import opened Messenger
  import opened Hook

  /** `issueActionMap`. */
  const IssueActionMap: map<string, string> := map["opened" := "提出了", "closed" := "关闭了"]

  /** `pullRequestActionMap`. */
  const PullRequestActionMap: map<string, string> :=
    map["opened" := "提出了", "closed" := "关闭了", "merged" := "合并了", "reopened" := "重开了"]

  /** Go's map index: the entry for `key`, or the empty string when there is none. */
  function Lookup(m: map<string, string>, key: string): string
  {
    if key in m then m[key] else ""
  }

  /** Every action an issue line is sent for has its own phrase. */
  lemma IssuePhrases(action: string)
    requires IsShownIssueAction(action)
    ensures Lookup(IssueActionMap, action) == (if action == "opened" then "提出了" else "关闭了")
    ensures Lookup(IssueActionMap, action) != ""
  {
  }

  /**
   * After the merged relabelling every action a pull request line is sent for has
   * an entry, so the phrase is never the empty default, and it reads 合并了 (merged)
   * exactly for a merged close.
   */
  lemma PullRequestPhrases(action: string, merged: bool)
    requires IsShownPullRequestAction(action)
    ensures DisplayedPullRequestAction(action, merged) in PullRequestActionMap
    ensures Lookup(PullRequestActionMap, DisplayedPullRequestAction(action, merged)) != ""
    ensures Lookup(PullRequestActionMap, DisplayedPullRequestAction(action, merged)) == "合并了" <==>
      action == "closed" && merged
  {
  }

  /** `humanizeRefZh`: a branch ref `refs/heads/<name>` reads as `<name> 分支`. */
  function HumanizeRefZh(ref: string): string
  {
    if HeadsPrefix <= ref then ref[|HeadsPrefix|..] + " 分支" else ref
  }

  lemma HumanizeBranchRefZh(name: string)
    ensures HumanizeRefZh(HeadsPrefix + name) == name + " 分支"
  {
    assert (HeadsPrefix + name)[|HeadsPrefix|..] == name;
  }

  lemma HumanizeOtherRefZh(ref: string)
    requires !(HeadsPrefix <= ref)
    ensures HumanizeRefZh(ref) == ref
  {
  }

  // ---------------------------------------------------------------------------
  // Comment abbreviation
  // ---------------------------------------------------------------------------

  /** What `abbrCommentZh` returns; the count is `len(s) - i`, `i` the byte offset of the stop. */
  function AbbreviationZh(s: string): string
  {
    match Scan(s)
    case None => s
    case Some(Stop(k, AtBreak)) =>
      s[..k] + " ... (略去 " + IntToString(Utf8Length(s) - Utf8Length(s[..k])) + " 字节)"
    case Some(Stop(k, AtCap)) =>
      s[..k] + "... (略去 " + IntToString(Utf8Length(s) - Utf8Length(s[..k])) + " 字节)"
  }

  /**
   * The same cut as `abbrComment`; the count in the marker is the UTF-8 length of
   * the dropped tail, stopping rune included.
   */
  lemma AbbreviationZhSpec(s: string)
    ensures Untouched(s) ==> AbbreviationZh(s) == s
    ensures !Untouched(s) ==>
      exists k :: 0 <= k < |s| && k <= MaxKept && (forall j :: 0 <= j < k ==> !IsBreak(s[j], j + 1)) &&
        Utf8Length(s[k..]) >= 1 && Utf8Length(s[..k]) + Utf8Length(s[k..]) == Utf8Length(s) &&
        if IsBreak(s[k], k + 1) then
          AbbreviationZh(s) == s[..k] + " ... (略去 " + IntToString(Utf8Length(s[k..])) + " 字节)"
        else
          k == MaxKept &&
          AbbreviationZh(s) == s[..k] + "... (略去 " + IntToString(Utf8Length(s[k..])) + " 字节)"
  {
    ScanCharacterization(s);
    if !Untouched(s) {
      var k := Scan(s).value.at;
      OmittedBytes(s);
      var n := Utf8Length(s[k..]);
      assert Utf8Length(s) - Utf8Length(s[..k]) == n;
      if IsBreak(s[k], k + 1) {
        assert AbbreviationZh(s) == s[..k] + " ... (略去 " + IntToString(n) + " 字节)";
      } else {
        assert AbbreviationZh(s) == s[..k] + "... (略去 " + IntToString(n) + " 字节)";
      }
    }
  }

  /** The abbreviated body never holds a CR or LF. */
  lemma AbbreviationZhHasNoNewline(s: string)
    ensures HasNoNewline(AbbreviationZh(s))
  {
    KeptTextHasNoNewline(s);
    if Scan(s).Some? {
      var k := Scan(s).value.at;
      var count := Utf8Length(s) - Utf8Length(s[..k]);
      var lead := if Scan(s).value.kind == AtBreak then " ... (略去 " else "... (略去 ";
      DigitsHaveNoNewline(count);
      NoNewlineAppend(s[..k], lead);
      NoNewlineAppend(s[..k] + lead, IntToString(count));
      NoNewlineAppend(s[..k] + lead + IntToString(count), " 字节)");
      assert AbbreviationZh(s) == s[..k] + lead + IntToString(count) + " 字节)";
    }
  }

  /** `abbrCommentZh`: the rune-counting loop, which also keeps the byte offset `i` of the rune. */
  method AbbrCommentZh(s: string) returns (r: string)
    ensures r == AbbreviationZh(s)
  {
    var total := Utf8Length(s);
    var nrune := 0;
    var k, i := 0, 0;
    assert s[..0] == [];
    while k < |s|
      invariant k <= |s| && k <= MaxKept && nrune == k
      invariant i == Utf8Length(s[..k])
      invariant ScanFrom(s, k) == Scan(s)
    {
      var c := s[k];
      nrune := nrune + 1;
      if c == '\r' || c == '\n' || (c == ' ' && nrune > SpaceAfter) {
        ScanFromBreak(s, k);
        return s[..k] + " ... (略去 " + IntToString(total - i) + " 字节)";
      }
      if nrune > MaxKept {
        ScanFromCap(s, k);
        return s[..k] + "... (略去 " + IntToString(total - i) + " 字节)";
      }
      Utf8LengthStep(s, k);
      i := i + Utf8Width(c);
      ScanFromNext(s, k);
      k := k + 1;
    }
    ScanFromEnd(s);
    return s;
  }

  // ---------------------------------------------------------------------------
  // Event lines
  // ---------------------------------------------------------------------------

  /** The push header: the count in decimal, with no singular form. */
  function PushHeaderZh(e: PushEvent): string
  {
    e.sender.login + " 向 " + HumanizeRefZh(e.ref) + "推了 " + IntToString(|e.commits|) + " 个 commit："
  }

  /** The lines `OnPush` sends. */
  function PushLinesZh(e: PushEvent): seq<string>
  {
    [PushHeaderZh(e)] + CommitLines(e.commits)
  }

  function IssueLineZh(e: IssuesEvent): string
  {
    e.sender.login + " " + Lookup(IssueActionMap, e.action) + " issue #" + IntToString(e.issue.number) +
    " " + e.issue.title + " (" + e.issue.htmlUrl + ")"
  }

  /** The lines `OnIssues` sends. */
  function IssuesLinesZh(e: IssuesEvent): seq<string>
  {
    if IsShownIssueAction(e.action) then [IssueLineZh(e)] else []
  }

  function CommentHeaderZh(e: IssueCommentEvent): string
  {
    e.sender.login + " 评论了 issue #" + IntToString(e.issue.number) + " " +
    e.issue.title + " (" + e.issue.htmlUrl + "):"
  }

  /** The lines `OnIssueComment` sends. */
  function IssueCommentLinesZh(e: IssueCommentEvent): seq<string>
  {
    if IsShownCommentAction(e.action) then [CommentHeaderZh(e), "  " + AbbreviationZh(e.comment.body)] else []
  }

  function PullRequestLineZh(e: PullRequestEvent): string
  {
    e.sender.login + " " + Lookup(PullRequestActionMap, DisplayedPullRequestAction(e.action, e.pullRequest.merged)) +
    " PR #" + IntToString(e.pullRequest.number) + " " + e.pullRequest.title +
    " (" + e.pullRequest.htmlUrl + ")"
  }

  /** The lines `OnPullRequest` sends. */
  function PullRequestLinesZh(e: PullRequestEvent): seq<string>
  {
    if IsShownPullRequestAction(e.action) then [PullRequestLineZh(e)] else []
  }

  /** A push sends a header and then one line per commit, in commit order. */
  lemma PushLinesZhSpec(e: PushEvent)
    ensures var lines := PushLinesZh(e);
      |lines| == 1 + |e.commits| &&
      lines[0] == e.sender.login + " 向 " + HumanizeRefZh(e.ref) + "推了 " + IntToString(|e.commits|) +
                  " 个 commit：" &&
      forall i :: 0 <= i < |e.commits| ==>
        lines[i + 1] == "  " + FirstLine(e.commits[i].message) + " (by " + e.commits[i].author.name + ")"
  {
    CommitLinesAt(e.commits);
  }

  /** An opened issue reads 提出了, a closed one 关闭了; other actions send nothing. */
  lemma IssuesLinesZhSpec(e: IssuesEvent)
    ensures var tail := " issue #" + IntToString(e.issue.number) + " " + e.issue.title +
                        " (" + e.issue.htmlUrl + ")";
      (e.action == "opened" ==> IssuesLinesZh(e) == [e.sender.login + " " + "提出了" + tail]) &&
      (e.action == "closed" ==> IssuesLinesZh(e) == [e.sender.login + " " + "关闭了" + tail]) &&
      (e.action !in ["opened", "closed"] ==> IssuesLinesZh(e) == [])
  {
    var tail := " issue #" + IntToString(e.issue.number) + " " + e.issue.title + " (" + e.issue.htmlUrl + ")";
    var head := e.sender.login + " " + Lookup(IssueActionMap, e.action);
    assert IssueLineZh(e) == head + tail by {
      assert IssueLineZh(e) == head + " issue #" + IntToString(e.issue.number) + " " + e.issue.title +
                               " (" + e.issue.htmlUrl + ")";
    }
  }

  /**
   * A created comment sends two lines: a header with sender, number, title and the
   * issue's HTML URL, then the abbreviated body; other actions send none.
   */
  lemma IssueCommentLinesZhSpec(e: IssueCommentEvent)
    ensures (|IssueCommentLinesZh(e)| == 2 <==> e.action == "created")
    ensures e.action == "created" ==>
      IssueCommentLinesZh(e)[0] == e.sender.login + " 评论了 issue #" + IntToString(e.issue.number) + " " +
                                   e.issue.title + " (" + e.issue.htmlUrl + "):"
    ensures e.action == "created" ==> IssueCommentLinesZh(e)[1] == "  " + AbbreviationZh(e.comment.body)
    ensures e.action != "created" ==> IssueCommentLinesZh(e) == []
  {
  }

  /**
   * The pull request line uses the phrase of the relabelled action: 合并了 for a
   * merged close, 关闭了 for an unmerged one, 提出了 and 重开了 for an opened and a
   * reopened one; other actions send nothing.
   */
  lemma PullRequestLinesZhSpec(e: PullRequestEvent)
    ensures var tail := " PR #" + IntToString(e.pullRequest.number) + " " + e.pullRequest.title +
                        " (" + e.pullRequest.htmlUrl + ")";
      (e.action == "closed" && e.pullRequest.merged ==>
        PullRequestLinesZh(e) == [e.sender.login + " " + "合并了" + tail]) &&
      (e.action == "closed" && !e.pullRequest.merged ==>
        PullRequestLinesZh(e) == [e.sender.login + " " + "关闭了" + tail]) &&
      (e.action == "opened" ==> PullRequestLinesZh(e) == [e.sender.login + " " + "提出了" + tail]) &&
      (e.action == "reopened" ==> PullRequestLinesZh(e) == [e.sender.login + " " + "重开了" + tail]) &&
      (e.action !in ["opened", "closed", "reopened"] ==> PullRequestLinesZh(e) == [])
  {
    var tail := " PR #" + IntToString(e.pullRequest.number) + " " + e.pullRequest.title +
                " (" + e.pullRequest.htmlUrl + ")";
    var phrase := Lookup(PullRequestActionMap, DisplayedPullRequestAction(e.action, e.pullRequest.merged));
    assert PullRequestLineZh(e) == e.sender.login + " " + phrase + tail by {
      assert PullRequestLineZh(e) == e.sender.login + " " + phrase + " PR #" + IntToString(e.pullRequest.number) +
                                     " " + e.pullRequest.title + " (" + e.pullRequest.htmlUrl + ")";
    }
    if e.action == "closed" && e.pullRequest.merged {
      assert phrase == "合并了";
    } else if e.action == "closed" {
      assert phrase == "关闭了";
    } else if e.action == "opened" {
      assert phrase == "提出了";
    } else if e.action == "reopened" {
      assert phrase == "重开了";
    }
  }

  // ---------------------------------------------------------------------------
  // The messenger
  // ---------------------------------------------------------------------------

  class IrcMessengerZh {
    const base: IrcMessenger

    /** `MakeIRCMessengerZh`. */
    constructor (client: IrcClient, channel: string)
      ensures fresh(base) && base.client == client && base.channel == channel
    {
      base := new IrcMessenger(client, channel);
    }

    method OnPush(event: PushEvent)
      requires base.client.Valid() && |base.client.queue| + 1 + |event.commits| <= QueueCapacity
      modifies base.client
      ensures base.client.Valid()
      ensures base.client.queue == old(base.client.queue) + Privmsgs(base.channel, PushLinesZh(event))
      ensures base.client.wire == old(base.client.wire)
      ensures base.client.disconnected == old(base.client.disconnected)
    {
      var header := PushHeaderZh(event);
      var commits := event.commits;
      base.Message(header);
      for i := 0 to |commits|
        invariant base.client.Valid() && |base.client.queue| == |old(base.client.queue)| + 1 + i
        invariant base.client.queue ==
          old(base.client.queue) + Privmsgs(base.channel, [header] + CommitLines(commits[..i]))
        invariant base.client.wire == old(base.client.wire)
        invariant base.client.disconnected == old(base.client.disconnected)
      {
        var line := CommitLine(commits[i]);
        HeaderCommitLinesStep(header, commits, i);
        PrivmsgsSnoc(base.channel, [header] + CommitLines(commits[..i]), line);
        base.Message(line);
      }
      assert commits[..|commits|] == commits;
      assert [header] + CommitLines(commits) == PushLinesZh(event);
    }

    method OnIssues(event: IssuesEvent)
      requires base.client.Valid() && |base.client.queue| + |IssuesLinesZh(event)| <= QueueCapacity
      modifies base.client
      ensures base.client.Valid()
      ensures base.client.queue == old(base.client.queue) + Privmsgs(base.channel, IssuesLinesZh(event))
      ensures base.client.wire == old(base.client.wire)
      ensures base.client.disconnected == old(base.client.disconnected)
    {
      if event.action == "opened" || event.action == "closed" {
        base.Message(IssueLineZh(event));
      }
    }

    method OnIssueComment(event: IssueCommentEvent)
      requires base.client.Valid() && |base.client.queue| + |IssueCommentLinesZh(event)| <= QueueCapacity
      modifies base.client
      ensures base.client.Valid()
      ensures base.client.queue == old(base.client.queue) + Privmsgs(base.channel, IssueCommentLinesZh(event))
      ensures base.client.wire == old(base.client.wire)
      ensures base.client.disconnected == old(base.client.disconnected)
    {
      if event.action == "created" {
        base.Message(CommentHeaderZh(event));
        var abbr := AbbrCommentZh(event.comment.body);
        base.Message("  " + abbr);
      }
    }

    method OnPullRequest(event: PullRequestEvent)
      requires base.client.Valid() && |base.client.queue| + |PullRequestLinesZh(event)| <= QueueCapacity
      modifies base.client
      ensures base.client.Valid()
      ensures base.client.queue == old(base.client.queue) + Privmsgs(base.channel, PullRequestLinesZh(event))
      ensures base.client.wire == old(base.client.wire)
      ensures base.client.disconnected == old(base.client.disconnected)
    {
      if event.action == "opened" || event.action == "closed" || event.action == "reopened" {
        var action := event.action;
        if action == "closed" && event.pullRequest.merged {
          action := "merged";
        }
        base.Message(event.sender.login + " " + Lookup(PullRequestActionMap, action) + " PR #" +
                     IntToString(event.pullRequest.number) + " " + event.pullRequest.title +
                     " (" + event.pullRequest.htmlUrl + ")");
      }
    }
  }
}
