/**
 * hook.go: turning one decoded webhook event into the chat lines to send
 * (`eventToMessage`), with its helpers `humanizeRef`, `abbrComment`,
 * `firstLine` and `withNum`. The commit line, the per-kind action allow-lists and
 * the merged relabelling defined here are shared with the per-language formatters,
 * which repeat them verbatim.
 */
module Hook {
  import opened Wrappers
  import opened Text
  import opened Events
  import opened CommentScan

  // ---------------------------------------------------------------------------
  // Helpers
  // ---------------------------------------------------------------------------

  const HeadsPrefix: string := "refs/heads/"

  /** A branch ref `refs/heads/<name>` reads as `branch <name>`; other refs are kept. */
  function HumanizeRef(ref: string): string
  {
    if HeadsPrefix <= ref then "branch " + ref[|HeadsPrefix|..] else ref
  }

  lemma HumanizeBranchRef(name: string)
    ensures HumanizeRef(HeadsPrefix + name) == "branch " + name
  {
    assert (HeadsPrefix + name)[|HeadsPrefix|..] == name;
  }

  lemma HumanizeOtherRef(ref: string)
    requires !(HeadsPrefix <= ref)
    ensures HumanizeRef(ref) == ref
  {
  }

  lemma HumanizeRefExamples()
    ensures HumanizeRef("refs/heads/main") == "branch main"
    ensures HumanizeRef("refs/tags/v1") == "refs/tags/v1"
  {
    HumanizeBranchRef("main");
    assert "refs/tags/v1"[5] != HeadsPrefix[5];
  }

  /**
   * `strings.SplitN(s, "\n", 2)[0]`: the text before the first line feed, or all
   * of `s` when it has none. Also `firstLine` of messenger_en.go, an identical copy.
   */
  function FirstLine(s: string): (r: string)
    ensures r <= s
    ensures '\n' !in r
    ensures |r| == |s| || s[|r|] == '\n'
  {
    if s == [] || s[0] == '\n' then [] else [s[0]] + FirstLine(s[1..])
  }

  /** `n` followed by the singular noun when `n` is 1 and by the plural otherwise. */
  function WithNum(n: int, single: string, plural: string): string
  {
    if n == 1 then "1 " + single else IntToString(n) + " " + plural
  }

  /** Every count, 1 included, is written in decimal; only the noun depends on it. */
  lemma WithNumDecimal(n: int, single: string, plural: string)
    ensures WithNum(n, single, plural) == IntToString(n) + " " + (if n == 1 then single else plural)
    ensures n != 1 ==> WithNum(n, single, plural) == IntToString(n) + " " + plural
  {
    assert IntToString(1) == "1";
  }

  /** The line for one pushed commit. */
  function CommitLine(c: Commit): string
  {
    "  " + FirstLine(c.message) + " (by " + c.author.name + ")"
  }

  function CommitLines(cs: seq<Commit>): (r: seq<string>)
    ensures |r| == |cs|
  {
    if cs == [] then [] else [CommitLine(cs[0])] + CommitLines(cs[1..])
  }

  /** One line per commit, in commit order. */
  lemma {:induction false} CommitLinesAt(cs: seq<Commit>)
    ensures forall i :: 0 <= i < |cs| ==> CommitLines(cs)[i] == CommitLine(cs[i])
  {
    if cs != [] {
      CommitLinesAt(cs[1..]);
    }
  }

  lemma {:induction false} CommitLinesAppend(cs: seq<Commit>, c: Commit)
    ensures CommitLines(cs + [c]) == CommitLines(cs) + [CommitLine(c)]
  {
    if cs == [] {
      assert cs + [c] == [c];
    } else {
      assert (cs + [c])[1..] == cs[1..] + [c];
      CommitLinesAppend(cs[1..], c);
    }
  }

  /** One more commit extends a header and its commit lines by that commit's line. */
  lemma HeaderCommitLinesStep(header: string, commits: seq<Commit>, i: nat)
    requires i < |commits|
    ensures [header] + CommitLines(commits[..i + 1]) == [header] + CommitLines(commits[..i]) + [CommitLine(commits[i])]
  {
    assert commits[..i + 1] == commits[..i] + [commits[i]];
    CommitLinesAppend(commits[..i], commits[i]);
  }

  // ---------------------------------------------------------------------------
  // Action filters
  // ---------------------------------------------------------------------------

  predicate IsShownIssueAction(action: string) { action == "opened" || action == "closed" }

  predicate IsShownCommentAction(action: string) { action == "created" }

  predicate IsShownPullRequestAction(action: string) {
    action == "opened" || action == "closed" || action == "reopened"
  }

  /** A closed pull request that was merged is reported as merged. */
  function DisplayedPullRequestAction(action: string, merged: bool): string
  {
    if action == "closed" && merged then "merged" else action
  }

  /** For a shown action, `merged` is displayed exactly for a merged close; anything else verbatim. */
  lemma DisplayedPullRequestActionSpec(action: string, merged: bool)
    requires IsShownPullRequestAction(action)
    ensures DisplayedPullRequestAction(action, merged) == "merged" <==> action == "closed" && merged
    ensures DisplayedPullRequestAction(action, merged) != "merged" ==>
      DisplayedPullRequestAction(action, merged) == action
    ensures DisplayedPullRequestAction(action, merged) in ["opened", "closed", "merged", "reopened"]
  {
  }

  // ---------------------------------------------------------------------------
  // Comment abbreviation
  // ---------------------------------------------------------------------------

  /** What `abbrComment` returns: the kept runes and, after a truncation, a marker. */
  function Abbreviation(s: string): string
  {
    match Scan(s)
    case None => s
    case Some(Stop(k, AtBreak)) => s[..k] + " ... (omitted)"
    case Some(Stop(k, AtCap)) => s[..k] + "... (omitted)"
  }

  /**
   * An untouched body comes back as it is. Otherwise the result keeps a prefix of
   * at most 120 runes ending just before the first breaking rune, followed by
   * " ... (omitted)", or, when no rune among the first 121 breaks, the first 120
   * runes followed by "... (omitted)".
   */
  lemma AbbreviationSpec(s: string)
    ensures Untouched(s) ==> Abbreviation(s) == s
    ensures !Untouched(s) ==>
      exists k :: 0 <= k < |s| && k <= MaxKept && (forall j :: 0 <= j < k ==> !IsBreak(s[j], j + 1)) &&
        if IsBreak(s[k], k + 1) then Abbreviation(s) == s[..k] + " ... (omitted)"
        else k == MaxKept && Abbreviation(s) == s[..k] + "... (omitted)"
  {
    ScanCharacterization(s);
    if !Untouched(s) {
      var k := Scan(s).value.at;
      assert 0 <= k < |s| && k <= MaxKept;
    }
  }

  /** The abbreviated body never holds a CR or LF. */
  lemma AbbreviationHasNoNewline(s: string)
    ensures HasNoNewline(Abbreviation(s))
  {
    KeptTextHasNoNewline(s);
    match Scan(s)
    case None =>
    case Some(Stop(k, AtBreak)) => NoNewlineAppend(s[..k], " ... (omitted)");
    case Some(Stop(k, AtCap)) => NoNewlineAppend(s[..k], "... (omitted)");
  }

  /**
   * A truncated result is not always different from its input: a body of 101
   * letters followed by " ... (omitted)" stops at that space and is rebuilt
   * exactly, so "returned unchanged" describes the untouched path, not equality.
   */
  lemma AbbreviationCanReproduceItsInput()
    ensures var s := seq(101, _ => 'a') + " ... (omitted)";
      !Untouched(s) && Abbreviation(s) == s
  {
    var s := seq(101, _ => 'a') + " ... (omitted)";
    assert s[101] == ' ';
    ScanStopsAt(s, 101);
    assert s[..101] + " ... (omitted)" == s;
  }

  /** `abbrComment`: the rune-counting loop with its two early returns. */
  method AbbrComment(s: string) returns (r: string)
    ensures r == Abbreviation(s)
  {
    var nrune := 0;
    var k := 0;
    while k < |s|
      invariant k <= |s| && k <= MaxKept && nrune == k
      invariant ScanFrom(s, k) == Scan(s)
    {
      var c := s[k];
      nrune := nrune + 1;
      if c == '\r' || c == '\n' || (c == ' ' && nrune > SpaceAfter) {
        ScanFromBreak(s, k);
        return s[..k] + " ... (omitted)";
      }
      if nrune > MaxKept {
        ScanFromCap(s, k);
        return s[..k] + "... (omitted)";
      }
      ScanFromNext(s, k);
      k := k + 1;
    }
    ScanFromEnd(s);
    return s;
  }

  // ---------------------------------------------------------------------------
  // Event lines
  // ---------------------------------------------------------------------------

  function PushHeader(e: PushEvent): string
  {
    "@" + e.sender.login + " pushed " + WithNum(|e.commits|, "commit", "commits") +
    " to " + HumanizeRef(e.ref) + ":"
  }

  function PushLines(e: PushEvent): seq<string>
  {
    [PushHeader(e)] + CommitLines(e.commits)
  }

  function IssueLine(e: IssuesEvent): string
  {
    "@" + e.sender.login + " " + e.action + " issue #" + IntToString(e.issue.number) +
    " (" + e.issue.title + ")"
  }

  function IssuesLines(e: IssuesEvent): seq<string>
  {
    if IsShownIssueAction(e.action) then [IssueLine(e)] else []
  }

  function CommentHeader(e: IssueCommentEvent): string
  {
    "@" + e.sender.login + " commented on issue #" + IntToString(e.issue.number) +
    " (" + e.issue.title + "):"
  }

  function IssueCommentLines(e: IssueCommentEvent): seq<string>
  {
    if IsShownCommentAction(e.action) then [CommentHeader(e), "  " + Abbreviation(e.comment.body)] else []
  }

  function PullRequestLine(e: PullRequestEvent): string
  {
    "@" + e.sender.login + " " + DisplayedPullRequestAction(e.action, e.pullRequest.merged) +
    " pull request #" + IntToString(e.pullRequest.number) + " (" + e.pullRequest.title + ")"
  }

  function PullRequestLines(e: PullRequestEvent): seq<string>
  {
    if IsShownPullRequestAction(e.action) then [PullRequestLine(e)] else []
  }

  /** The lines `eventToMessage` returns for an event type and the decoded body. */
  function EventLines(eventType: string, body: Decodings): seq<string>
  {
    if eventType == "push" then
      match body.push case None => [] case Some(e) => PushLines(e)
    else if eventType == "issues" then
      match body.issues case None => [] case Some(e) => IssuesLines(e)
    else if eventType == "issue_comment" then
      match body.issueComment case None => [] case Some(e) => IssueCommentLines(e)
    else if eventType == "pull_request" then
      match body.pullRequest case None => [] case Some(e) => PullRequestLines(e)
    else []
  }

  /** `eventToMessage` over an already-decoded body. */
  method EventToMessage(eventType: string, body: Decodings) returns (lines: seq<string>)
    ensures lines == EventLines(eventType, body)
  {
    if eventType == "ping" {
      return [];
    } else if eventType == "push" {
      if body.push.None? {
        return [];
      }
      var event := body.push.value;
      lines := [PushHeader(event)];
      for i := 0 to |event.commits|
        invariant lines == [PushHeader(event)] + CommitLines(event.commits[..i])
      {
        HeaderCommitLinesStep(PushHeader(event), event.commits, i);
        lines := lines + [CommitLine(event.commits[i])];
      }
      assert event.commits[..|event.commits|] == event.commits;
    } else if eventType == "issues" {
      if body.issues.None? {
        return [];
      }
      var event := body.issues.value;
      if event.action == "opened" || event.action == "closed" {
        return [IssueLine(event)];
      }
      return [];
    } else if eventType == "issue_comment" {
      if body.issueComment.None? {
        return [];
      }
      var event := body.issueComment.value;
      if event.action == "created" {
        var abbr := AbbrComment(event.comment.body);
        return [CommentHeader(event), "  " + abbr];
      }
      return [];
    } else if eventType == "pull_request" {
      if body.pullRequest.None? {
        return [];
      }
      var event := body.pullRequest.value;
      if event.action == "opened" || event.action == "closed" || event.action == "reopened" {
        var action := event.action;
        if action == "closed" && event.pullRequest.merged {
          action := "merged";
        }
        return ["@" + event.sender.login + " " + action + " pull request #" +
                IntToString(event.pullRequest.number) + " (" + event.pullRequest.title + ")"];
      }
      return [];
    } else {
      return [];
    }
  }

  // ---------------------------------------------------------------------------
  // Properties of the event lines
  // ---------------------------------------------------------------------------

  /** A push gives a header and then one line per commit, in commit order. */
  lemma PushEventLines(body: Decodings)
    requires body.push.Some?
    ensures var e, lines := body.push.value, EventLines("push", body);
      |lines| == 1 + |e.commits| &&
      lines[0] == "@" + e.sender.login + " pushed " + WithNum(|e.commits|, "commit", "commits") +
                  " to " + HumanizeRef(e.ref) + ":" &&
      forall i :: 0 <= i < |e.commits| ==>
        lines[i + 1] == "  " + FirstLine(e.commits[i].message) + " (by " + e.commits[i].author.name + ")"
  {
    var e := body.push.value;
    CommitLinesAt(e.commits);
  }

  /** An issue event gives one line exactly when it was opened or closed. */
  lemma IssuesEventLines(body: Decodings)
    requires body.issues.Some?
    ensures var e, lines := body.issues.value, EventLines("issues", body);
      (|lines| == 1 <==> e.action in ["opened", "closed"]) &&
      (e.action in ["opened", "closed"] ==>
        lines[0] == "@" + e.sender.login + " " + e.action + " issue #" + IntToString(e.issue.number) +
                    " (" + e.issue.title + ")") &&
      (e.action !in ["opened", "closed"] ==> lines == [])
  {
  }

  /** A comment event gives two lines, the second the abbreviated body, exactly when it was created. */
  lemma IssueCommentEventLines(body: Decodings)
    requires body.issueComment.Some?
    ensures var e, lines := body.issueComment.value, EventLines("issue_comment", body);
      (|lines| == 2 <==> e.action == "created") &&
      (e.action == "created" ==>
        lines[0] == "@" + e.sender.login + " commented on issue #" + IntToString(e.issue.number) +
                    " (" + e.issue.title + "):" &&
        lines[1] == "  " + Abbreviation(e.comment.body)) &&
      (e.action != "created" ==> lines == [])
  {
  }

  /**
   * A pull request event gives one line exactly when it was opened, closed or
   * reopened; the line says `merged` exactly for a merged close.
   */
  lemma PullRequestEventLines(body: Decodings)
    requires body.pullRequest.Some?
    ensures var e, lines := body.pullRequest.value, EventLines("pull_request", body);
      (|lines| == 1 <==> e.action in ["opened", "closed", "reopened"]) &&
      (e.action in ["opened", "closed", "reopened"] ==>
        lines[0] == "@" + e.sender.login + " " +
                    (if e.action == "closed" && e.pullRequest.merged then "merged" else e.action) +
                    " pull request #" + IntToString(e.pullRequest.number) + " (" + e.pullRequest.title + ")") &&
      (e.action !in ["opened", "closed", "reopened"] ==> lines == [])
  {
  }

  /** A ping, an unknown event type, or a body that does not decode gives no lines. */
  lemma IgnoredEvents(eventType: string, body: Decodings)
    requires
      eventType !in ["push", "issues", "issue_comment", "pull_request"] ||
      (eventType == "push" && body.push.None?) ||
      (eventType == "issues" && body.issues.None?) ||
      (eventType == "issue_comment" && body.issueComment.None?) ||
      (eventType == "pull_request" && body.pullRequest.None?)
    ensures EventLines(eventType, body) == []
  {
  }

  /** A push of two commits gives exactly three lines: the header, then the commits in order. */
  lemma PushWithTwoCommits(login: string, ref: string, c1: Commit, c2: Commit, compare: string)
    ensures var body := Decodings(Some(PushEvent(Sender(login), ref, [c1, c2], compare)), None, None, None);
      EventLines("push", body) == [PushHeader(body.push.value), CommitLine(c1), CommitLine(c2)]
  {
    CommitLinesAt([c1, c2]);
  }
}
