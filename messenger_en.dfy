/**
 * messenger_en.go: the English messenger. Its four handlers send the lines of an
 * event, with URLs, through `Message`; its comment abbreviator reports how many
 * bytes it dropped.
 */
module MessengerEn {
  import opened Wrappers
  import opened Text
  import opened Events
  import opened CommentScan
  import opened Irc
  import opened Messenger
  import opened Hook

  /** `humanizeRefEn`, a copy of `humanizeRef`. */
  function HumanizeRefEn(ref: string): string
  {
    if HeadsPrefix <= ref then "branch " + ref[|HeadsPrefix|..] else ref
  }

  lemma HumanizeRefEnIsHumanizeRef(ref: string)
    ensures HumanizeRefEn(ref) == HumanizeRef(ref)
  {
  }

  /** `withNumEn`, a copy of `withNum`. */
  function WithNumEn(n: int, single: string, plural: string): string
  {
    if n == 1 then "1 " + single else IntToString(n) + " " + plural
  }

  lemma WithNumEnIsWithNum(n: int, single: string, plural: string)
    ensures WithNumEn(n, single, plural) == WithNum(n, single, plural)
  {
  }

  // ---------------------------------------------------------------------------
  // Comment abbreviation
  // ---------------------------------------------------------------------------

  /** What `abbrCommentEn` returns; the count is `len(s) - i`, `i` the byte offset of the stop. */
  function AbbreviationEn(s: string): string
  {
    match Scan(s)
    case None => s
    case Some(Stop(k, AtBreak)) =>
      s[..k] + " ... (" + IntToString(Utf8Length(s) - Utf8Length(s[..k])) + " bytes omitted)"
    case Some(Stop(k, AtCap)) =>
      s[..k] + " ...(" + IntToString(Utf8Length(s) - Utf8Length(s[..k])) + " bytes omitted)"
  }

  /**
   * The same cut as `abbrComment`. The count in the marker is the UTF-8 length of
   * the dropped tail, stopping rune included: at least 1, and together with the
   * bytes kept it makes up the whole body.
   */
  lemma AbbreviationEnSpec(s: string)
    ensures Untouched(s) ==> AbbreviationEn(s) == s
    ensures !Untouched(s) ==>
      exists k :: 0 <= k < |s| && k <= MaxKept && (forall j :: 0 <= j < k ==> !IsBreak(s[j], j + 1)) &&
        Utf8Length(s[k..]) >= 1 && Utf8Length(s[..k]) + Utf8Length(s[k..]) == Utf8Length(s) &&
        if IsBreak(s[k], k + 1) then
          AbbreviationEn(s) == s[..k] + " ... (" + IntToString(Utf8Length(s[k..])) + " bytes omitted)"
        else
          k == MaxKept &&
          AbbreviationEn(s) == s[..k] + " ...(" + IntToString(Utf8Length(s[k..])) + " bytes omitted)"
  {
    ScanCharacterization(s);
    if !Untouched(s) {
      var k := Scan(s).value.at;
      OmittedBytes(s);
      var n := Utf8Length(s[k..]);
      assert Utf8Length(s) - Utf8Length(s[..k]) == n;
      if IsBreak(s[k], k + 1) {
        assert AbbreviationEn(s) == s[..k] + " ... (" + IntToString(n) + " bytes omitted)";
      } else {
        assert AbbreviationEn(s) == s[..k] + " ...(" + IntToString(n) + " bytes omitted)";
      }
    }
  }

  /** The abbreviated body never holds a CR or LF. */
  lemma AbbreviationEnHasNoNewline(s: string)
    ensures HasNoNewline(AbbreviationEn(s))
  {
    KeptTextHasNoNewline(s);
    if Scan(s).Some? {
      var k := Scan(s).value.at;
      var count := Utf8Length(s) - Utf8Length(s[..k]);
      var lead := if Scan(s).value.kind == AtBreak then " ... (" else " ...(";
      DigitsHaveNoNewline(count);
      NoNewlineAppend(s[..k], lead);
      NoNewlineAppend(s[..k] + lead, IntToString(count));
      NoNewlineAppend(s[..k] + lead + IntToString(count), " bytes omitted)");
      assert AbbreviationEn(s) == s[..k] + lead + IntToString(count) + " bytes omitted)";
    }
  }

  /** `abbrCommentEn`: the rune-counting loop, which also keeps the byte offset `i` of the rune. */
  method AbbrCommentEn(s: string) returns (r: string)
    ensures r == AbbreviationEn(s)
  {
    var total := Utf8Length(s);
    var nrune := 0;
    var k, i := 0, 0;
    assert s[..0] == [];
    while k < |s|
      invariant k <= |s| && k <= MaxKept && nrune == k
      invariant i == Utf8Length(s[..k])
      invariant ScanFrom(s, k) == Scan(s)
    {
      var c := s[k];
      nrune := nrune + 1;
      if c == '\r' || c == '\n' || (c == ' ' && nrune > SpaceAfter) {
        ScanFromBreak(s, k);
        return s[..k] + " ... (" + IntToString(total - i) + " bytes omitted)";
      }
      if nrune > MaxKept {
        ScanFromCap(s, k);
        return s[..k] + " ...(" + IntToString(total - i) + " bytes omitted)";
      }
      Utf8LengthStep(s, k);
      i := i + Utf8Width(c);
      ScanFromNext(s, k);
      k := k + 1;
    }
    ScanFromEnd(s);
    return s;
  }

  // ---------------------------------------------------------------------------
  // Event lines
  // ---------------------------------------------------------------------------

  function PushHeaderEn(e: PushEvent): string
  {
    e.sender.login + " pushed " + WithNumEn(|e.commits|, "commit", "commits") +
    " to " + HumanizeRefEn(e.ref) + " (" + e.compare + "):"
  }

  /** The lines `OnPush` sends. */
  function PushLinesEn(e: PushEvent): seq<string>
  {
    [PushHeaderEn(e)] + CommitLines(e.commits)
  }

  function IssueLineEn(e: IssuesEvent): string
  {
    e.sender.login + " " + e.action + " issue #" + IntToString(e.issue.number) + " " +
    e.issue.title + " (" + e.issue.url + ")"
  }

  /** The lines `OnIssues` sends. */
  function IssuesLinesEn(e: IssuesEvent): seq<string>
  {
    if IsShownIssueAction(e.action) then [IssueLineEn(e)] else []
  }

  function CommentHeaderEn(e: IssueCommentEvent): string
  {
    e.sender.login + " commented on issue #" + IntToString(e.issue.number) + " " +
    e.issue.title + " (" + e.issue.url + "):"
  }

  /** The lines `OnIssueComment` sends. */
  function IssueCommentLinesEn(e: IssueCommentEvent): seq<string>
  {
    if IsShownCommentAction(e.action) then [CommentHeaderEn(e), "  " + AbbreviationEn(e.comment.body)] else []
  }

  function PullRequestLineEn(e: PullRequestEvent): string
  {
    e.sender.login + " " + DisplayedPullRequestAction(e.action, e.pullRequest.merged) +
    " pull request #" + IntToString(e.pullRequest.number) + " " + e.pullRequest.title +
    " (" + e.pullRequest.url + ")"
  }

  /** The lines `OnPullRequest` sends. */
  function PullRequestLinesEn(e: PullRequestEvent): seq<string>
  {
    if IsShownPullRequestAction(e.action) then [PullRequestLineEn(e)] else []
  }

  /** A push sends a header with the compare URL and then one line per commit, in commit order. */
  lemma PushLinesEnSpec(e: PushEvent)
    ensures var lines := PushLinesEn(e);
      |lines| == 1 + |e.commits| &&
      lines[0] == e.sender.login + " pushed " + WithNum(|e.commits|, "commit", "commits") +
                  " to " + HumanizeRef(e.ref) + " (" + e.compare + "):" &&
      forall i :: 0 <= i < |e.commits| ==>
        lines[i + 1] == "  " + FirstLine(e.commits[i].message) + " (by " + e.commits[i].author.name + ")"
  {
    CommitLinesAt(e.commits);
  }

  /** An issue event sends one line, with the issue URL, exactly when it was opened or closed. */
  lemma IssuesLinesEnSpec(e: IssuesEvent)
    ensures (|IssuesLinesEn(e)| == 1 <==> e.action in ["opened", "closed"])
    ensures e.action in ["opened", "closed"] ==>
      IssuesLinesEn(e)[0] == e.sender.login + " " + e.action + " issue #" + IntToString(e.issue.number) +
                             " " + e.issue.title + " (" + e.issue.url + ")"
    ensures e.action !in ["opened", "closed"] ==> IssuesLinesEn(e) == []
  {
  }

  /**
   * A created comment sends two lines: a header with sender, number, title and the
   * issue URL, then the abbreviated body; other actions send none.
   */
  lemma IssueCommentLinesEnSpec(e: IssueCommentEvent)
    ensures (|IssueCommentLinesEn(e)| == 2 <==> e.action == "created")
    ensures e.action == "created" ==>
      IssueCommentLinesEn(e)[0] == e.sender.login + " commented on issue #" + IntToString(e.issue.number) + " " +
                                   e.issue.title + " (" + e.issue.url + "):"
    ensures e.action == "created" ==> IssueCommentLinesEn(e)[1] == "  " + AbbreviationEn(e.comment.body)
    ensures e.action != "created" ==> IssueCommentLinesEn(e) == []
  {
  }

  /**
   * A merged close reads `merged`, an unmerged one `closed`, `opened` and
   * `reopened` read as they are, and other actions send nothing.
   */
  lemma PullRequestLinesEnSpec(e: PullRequestEvent)
    ensures var login, pr := e.sender.login, e.pullRequest;
      (e.action == "closed" && pr.merged ==>
        PullRequestLinesEn(e) == [login + " " + "merged" + " pull request #" + IntToString(pr.number) +
                                  " " + pr.title + " (" + pr.url + ")"]) &&
      (e.action == "closed" && !pr.merged ==>
        PullRequestLinesEn(e) == [login + " " + "closed" + " pull request #" + IntToString(pr.number) +
                                  " " + pr.title + " (" + pr.url + ")"]) &&
      (e.action in ["opened", "reopened"] ==>
        PullRequestLinesEn(e) == [login + " " + e.action + " pull request #" + IntToString(pr.number) +
                                  " " + pr.title + " (" + pr.url + ")"]) &&
      (e.action !in ["opened", "closed", "reopened"] ==> PullRequestLinesEn(e) == [])
  {
  }

  // ---------------------------------------------------------------------------
  // The messenger
  // ---------------------------------------------------------------------------

  class IrcMessengerEn {
    const base: IrcMessenger

    /** `MakeIRCMessengerEn`. */
    constructor (client: IrcClient, channel: string)
      ensures fresh(base) && base.client == client && base.channel == channel
    {
      base := new IrcMessenger(client, channel);
    }

    method OnPush(event: PushEvent)
      requires base.client.Valid() && |base.client.queue| + 1 + |event.commits| <= QueueCapacity
      modifies base.client
      ensures base.client.Valid()
      ensures base.client.queue == old(base.client.queue) + Privmsgs(base.channel, PushLinesEn(event))
      ensures base.client.wire == old(base.client.wire)
      ensures base.client.disconnected == old(base.client.disconnected)
    {
      var header := PushHeaderEn(event);
      var commits := event.commits;
      base.Message(header);
      for i := 0 to |commits|
        invariant base.client.Valid() && |base.client.queue| == |old(base.client.queue)| + 1 + i
        invariant base.client.queue ==
          old(base.client.queue) + Privmsgs(base.channel, [header] + CommitLines(commits[..i]))
        invariant base.client.wire == old(base.client.wire)
        invariant base.client.disconnected == old(base.client.disconnected)
      {
        var line := CommitLine(commits[i]);
        HeaderCommitLinesStep(header, commits, i);
        PrivmsgsSnoc(base.channel, [header] + CommitLines(commits[..i]), line);
        base.Message(line);
      }
      assert commits[..|commits|] == commits;
      assert [header] + CommitLines(commits) == PushLinesEn(event);
    }

    method OnIssues(event: IssuesEvent)
      requires base.client.Valid() && |base.client.queue| + |IssuesLinesEn(event)| <= QueueCapacity
      modifies base.client
      ensures base.client.Valid()
      ensures base.client.queue == old(base.client.queue) + Privmsgs(base.channel, IssuesLinesEn(event))
      ensures base.client.wire == old(base.client.wire)
      ensures base.client.disconnected == old(base.client.disconnected)
    {
      if event.action == "opened" || event.action == "closed" {
        base.Message(IssueLineEn(event));
      }
    }

    method OnIssueComment(event: IssueCommentEvent)
      requires base.client.Valid() && |base.client.queue| + |IssueCommentLinesEn(event)| <= QueueCapacity
      modifies base.client
      ensures base.client.Valid()
      ensures base.client.queue == old(base.client.queue) + Privmsgs(base.channel, IssueCommentLinesEn(event))
      ensures base.client.wire == old(base.client.wire)
      ensures base.client.disconnected == old(base.client.disconnected)
    {
      if event.action == "created" {
        base.Message(CommentHeaderEn(event));
        var abbr := AbbrCommentEn(event.comment.body);
        base.Message("  " + abbr);
      }
    }

    method OnPullRequest(event: PullRequestEvent)
      requires base.client.Valid() && |base.client.queue| + |PullRequestLinesEn(event)| <= QueueCapacity
      modifies base.client
      ensures base.client.Valid()
      ensures base.client.queue == old(base.client.queue) + Privmsgs(base.channel, PullRequestLinesEn(event))
      ensures base.client.wire == old(base.client.wire)
      ensures base.client.disconnected == old(base.client.disconnected)
    {
      if event.action == "opened" || event.action == "closed" || event.action == "reopened" {
        var action := event.action;
        if action == "closed" && event.pullRequest.merged {
          action := "merged";
        }
        base.Message(event.sender.login + " " + action + " pull request #" +
                     IntToString(event.pullRequest.number) + " " + event.pullRequest.title +
                     " (" + event.pullRequest.url + ")");
      }
    }
  }
}
