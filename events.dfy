/**
 * The decoded webhook events. Each record holds only the fields the formatters
 * read. The URL fields (`compare`, `url`, `htmlUrl`) belong to the revision of the
 * event records that the per-language formatters were written against.
 */
module Events {
  import opened Wrappers

  datatype Sender = Sender(login: string)

  datatype GitAuthor = GitAuthor(name: string)

  datatype Commit = Commit(author: GitAuthor, message: string)

  datatype Issue = Issue(number: int, title: string, url: string, htmlUrl: string)

  datatype Comment = Comment(body: string)

  datatype PullRequest = PullRequest(number: int, title: string, merged: bool, url: string, htmlUrl: string)

  datatype PushEvent = PushEvent(sender: Sender, ref: string, commits: seq<Commit>, compare: string)

  datatype IssuesEvent = IssuesEvent(sender: Sender, action: string, issue: Issue)

  datatype IssueCommentEvent = IssueCommentEvent(sender: Sender, action: string, issue: Issue, comment: Comment)

  datatype PullRequestEvent = PullRequestEvent(sender: Sender, action: string, number: int, pullRequest: PullRequest)

  /**
   * A request body as seen through the JSON decoder: for each of the four event
   * records, the record the body decodes to, or `None` when decoding into that
   * record fails.
   */
  datatype Decodings = Decodings(
    push: Option<PushEvent>,
    issues: Option<IssuesEvent>,
    issueComment: Option<IssueCommentEvent>,
    pullRequest: Option<PullRequestEvent>)
}
