# ghbot in Dafny

ghbot is a small Go service. It receives GitHub webhook events and relays a short
summary of each to one or more IRC channels, each with its own language (English
or Chinese). This project models the core of that path and
proves properties of the model:

- the formatting of the four event kinds it reports (push, issues, issue comment,
  pull request), in the older `eventToMessage` of hook.go and in the English and
  Chinese messengers;
- the three comment abbreviators;
- the `PRIVMSG` wrapping done by the messenger;
- the IRC client's outbound queue, its writer loop and its reader loop, which
  answers `PING`.

Modules, one per modelled source file, plus four shared ones:

| module | file | models |
|---|---|---|
| `Wrappers` | wrappers.dfy | the `Option` type for absent results |
| `Text` | text.dfy | the `%d` rendering of Go ints, and the UTF-8 length that Go's `len(s)` and byte offsets count |
| `Events` | events.dfy | the event records the handlers read, and the outcome of decoding a request body into each |
| `CommentScan` | comment_scan.dfy | the stopping rule the three comment abbreviators share |
| `Hook` | hook.dfy | hook.go: `eventToMessage`, `humanizeRef`, `abbrComment`, `firstLine`, `withNum` |
| `Irc` | irc.dfy | irc.go: the queue, `Send`, the writer loop and the reader loop |
| `Messenger` | messenger.dfy | messenger.go: `IRCMessenger.Message` |
| `MessengerEn` | messenger_en.dfy | messenger_en.go: the four `On…` handlers and their helpers |
| `MessengerZh` | messenger_zh.dfy | messenger_zh.go: the same, with the two action-phrase tables |

Pure Go helpers are Dafny functions. Loops are methods proved equal to those
functions. These are `eventToMessage`, the three `abbrComment…` functions, the
commit loop of each `OnPush`, and the writer and reader goroutines. The client and
the messengers are classes whose methods change the queue in place.

A Go string is a `seq<char>`: Dafny's `char` is a Unicode scalar value, which is
what `range` over a valid UTF-8 string yields. Go's byte length and byte offsets
are `Utf8Length`, the byte count of the UTF-8 encoding of section 3 of RFC 3629.

The connection is not modelled. The outcome of each write is a `bool` input. Each
read is a `ReadResult` input. `wire` holds the framed lines that were written.

JSON decoding is not modelled either. A `Decodings` value says, for each event
record, whether the body decoded into it and to what.

The event records carry the fields the handlers read. hook.go's structs (hook.go:13-65)
lack `Compare`, `URL` and `HTMLURL`, which the two messengers use. They are declared
in a later version of hook.go, which is not part of this model. `Events` adds them,
and `Hook` ignores them.

## Model

| member | source | states |
|---|---|---|
| Text.NatToString | hook.go:184 | the decimal form of a count is non-empty, all digits, and has no leading zero |
| Text.DigitsValueOfNatToString | hook.go:184 | reading the digits back gives the number again |
| Text.NatToStringInjective | hook.go:184 | different commit counts print differently |
| Text.IntToString | messenger_en.go:31-33 | `%d` always prints at least one character |
| Text.IntToStringValue | messenger_en.go:31-33 | `%d` of a non-negative number is all digits and reads back as that number; of a negative one it is a minus sign, then digits that read back as its absolute value |
| Text.IntToStringInjective | hook.go:106-108 | different issue numbers print differently, and so do pull request numbers (hook.go:141-143) |
| Text.Utf8Width | messenger_en.go:76-79 | one rune takes 1 to 4 bytes |
| Text.Utf8Length | messenger_en.go:79 | a string has at least as many bytes as runes |
| Text.Utf8LengthSplit | messenger_en.go:79 | cutting a string at a rune boundary splits its byte length between the two parts |
| CommentScan.ScanFrom | hook.go:162-174 | a stop found from rune `k` on lies after every non-breaking rune before it; it is a break exactly when that rune breaks, and a cap only at rune 121; no stop means the body has at most 120 runes and none breaks |
| CommentScan.ScanCharacterization | hook.go:164-172 | the scan stops exactly when the body is not untouched, and it stops at the first breaking rune or at rune 121 |
| CommentScan.ScanStopsAt | hook.go:164-172 | conversely, the first breaking rune, or rune 121 with no break before it, is where the scan stops |
| CommentScan.BreakTakesPriority | hook.go:166-170 | when rune 121 is itself a break, it is reported as a break, not as the cap |
| CommentScan.LongWordIsCapped | hook.go:169-170 | a body with no CR, LF or space in its first 121 runes is cut at the cap |
| CommentScan.ShortLineIsUntouched | hook.go:166 | a body of at most 100 runes with no CR or LF is untouched, spaces included |
| CommentScan.KeptTextHasNoNewline | hook.go:166-173 | neither the kept prefix nor an untouched body contains a CR or LF |
| CommentScan.OmittedBytes | messenger_en.go:79-82 | `len(s)-i` is the byte length of the dropped tail, stopping rune included, so it is at least 1 |
| Hook.HumanizeRef | hook.go:155-160 | the ref rendering; its contract is stated by `Hook.HumanizeBranchRef` and `Hook.HumanizeOtherRef` |
| Hook.HumanizeBranchRef | hook.go:155-160 | `refs/heads/<name>` becomes `branch <name>` |
| Hook.HumanizeOtherRef | hook.go:155-160 | any other ref is kept as it is |
| Hook.FirstLine | hook.go:176-178 | the result is a prefix of the message with no line feed, ending where the message ends or at its first line feed |
| Hook.WithNum | hook.go:180-185 | the count rendering; its contract is stated by `Hook.WithNumDecimal` |
| Hook.WithNumDecimal | hook.go:180-185 | a count is written in decimal followed by the noun; the singular noun is used exactly for 1 |
| Hook.CommitLines | hook.go:93-96 | one line per commit |
| Hook.CommitLinesAt | hook.go:93-96 | the `i`-th line is the `i`-th commit's first message line and author, in commit order |
| Hook.CommitLinesAppend | hook.go:93-96 | lines for one more commit are the old lines plus that commit's line |
| Hook.DisplayedPullRequestActionSpec | hook.go:136-139 | for a shown action, `merged` appears exactly for a merged close; other actions appear as they are |
| Hook.Abbreviation | hook.go:162-174 | the result of `abbrComment`; its contract is stated by `Hook.AbbreviationSpec` and `Hook.AbbreviationHasNoNewline`, and `Hook.AbbrComment` models the loop |
| Hook.AbbreviationSpec | hook.go:162-174 | an untouched body comes back as it is; otherwise the kept prefix of at most 120 runes ends before the first break and is followed by ` ... (omitted)`, or it is the first 120 runes followed by `... (omitted)` |
| Hook.AbbreviationHasNoNewline | hook.go:162-174 | an abbreviated body contains no CR or LF |
| Hook.AbbreviationCanReproduceItsInput | hook.go:162-174 | a truncated body can equal its input, so "unchanged" describes the untouched path, not equality of results |
| Hook.AbbrComment | hook.go:162-174 | the loop returns exactly the abbreviation |
| Hook.EventLines | hook.go:67-153 | the lines `eventToMessage` sends for an event type and body; its contract is stated by the four `…EventLines` lemmas and `Hook.IgnoredEvents` |
| Hook.EventToMessage | hook.go:67-153 | the switch over event types returns exactly the lines of the event |
| Hook.PushEventLines | hook.go:82-97 | a push gives a header with sender, pluralised commit count and ref, then one line per commit in order |
| Hook.IssuesEventLines | hook.go:98-112 | an issue event gives one line exactly for `opened` and `closed`, naming sender, action, number and title; otherwise none |
| Hook.IssueCommentEventLines | hook.go:113-128 | a comment event gives two lines exactly for `created`, the second the abbreviated body; otherwise none |
| Hook.PullRequestEventLines | hook.go:129-148 | a pull request event gives one line exactly for `opened`, `closed` and `reopened`, saying `merged` for a merged close; otherwise none |
| Hook.IgnoredEvents | hook.go:78-152 | a ping, an unknown event type, or a body that fails to decode gives no lines |
| Hook.PushWithTwoCommits | hook.go:82-97 | a push of two commits gives the header and then the two commit lines, in order |
| Irc.Frame | irc.go:60 | a queued message as written to the connection, CR LF appended; `Irc.UnframeFrame` states that the framing loses nothing |
| Irc.UnframeFrame | irc.go:60 | the writer's framing, message then CR LF, loses nothing |
| Irc.Delivered | irc.go:55-65 | the wire of the corrected writer: the framed messages whose writes succeed, in queue order; stated by `Irc.DeliveredInOrder` and `Irc.DeliveredAllOk` |
| Irc.DeliveredAsWritten | irc.go:55-65 | the wire of the writer as written, where the second turn blocks on the held mutex; stated by `Irc.DeliveredAsWrittenOnlyFirst` and `Irc.DeliveredAsWrittenLosesMessages` |
| Irc.DeliveredInOrder | irc.go:56-63 | writes follow queue order; a failed write drops only its own message; each successful write lands after those before it |
| Irc.DeliveredAllOk | irc.go:56-65 | when every write succeeds the wire carries every queued message, framed, in queue order |
| Irc.DeliveredAsWrittenOnlyFirst | irc.go:56-58 | as written, the writer delivers at most the first queued message |
| Irc.DeliveredAsWrittenLosesMessages | irc.go:56-58 | as written, once a second write would succeed, the wire differs from the intended one |
| Irc.WriterDeadlockExample | irc.go:56-58 | a nick line followed by a join: only the nick line goes out |
| Irc.PongReply | irc.go:46-49 | one chunk gives at most one reply |
| Irc.PongEchoesToken | irc.go:46-49 | `PING<token>` CR LF, read in one chunk of bytes, is answered with `PONG<token>` |
| Irc.PongExample | irc.go:46-49 | `PING :x` CR LF is answered with `PONG :x` |
| Irc.NoPongWithoutPing | irc.go:46 | a chunk that does not start with `PING` gets no reply |
| Irc.RepliesStopAtError | irc.go:40-44 | nothing read after the first read error is answered |
| Irc.IrcClient.constructor | irc.go:35 | a new client has an empty queue, has written nothing and is connected |
| Irc.IrcClient.Send | irc.go:70-72 | the message joins the back of the queue and nothing else changes |
| Irc.IrcClient.WriteNext | irc.go:56-63 | the front message leaves the queue and, when its write succeeds, its framed line is appended to the wire |
| Irc.IrcClient.WriteAll | irc.go:55-66 | the corrected writer (see Findings): it empties the queue and appends the framed lines of the successful writes |
| Irc.IrcClient.OnRead | irc.go:45-49 | one chunk queues its `PONG` reply, if any, and changes nothing else |
| Irc.IrcClient.ReadLoop | irc.go:37-52 | the reader queues the replies to the chunks before the first error, writes nothing, and closes the disconnect signal exactly when a read fails |
| Messenger.Privmsg | messenger.go:15-17 | the `PRIVMSG #<channel> :<text>` line; `Messenger.PrivmsgTextOfPrivmsg` states that the text can be read back unchanged |
| Messenger.PrivmsgTextOfPrivmsg | messenger.go:15-17 | the text goes into the `PRIVMSG #<channel> :` line verbatim and can be read back |
| Messenger.Privmsgs | messenger.go:15-17 | one queue entry per line |
| Messenger.PrivmsgsAt | messenger.go:15-17 | the `i`-th entry carries the `i`-th line |
| Messenger.PrivmsgsAppend | messenger.go:15-17 | sending two batches queues the first batch's entries, then the second's |
| Messenger.IrcMessenger.constructor | messenger.go:10-13 | a messenger holds the client and the channel it was given |
| Messenger.IrcMessenger.Message | messenger.go:15-17 | exactly one entry, the `PRIVMSG` line for the text, joins the back of the client's queue; nothing else changes |
| MessengerEn.IrcMessengerEn.constructor | messenger_en.go:13-15 | `MakeIRCMessengerEn` gives a fresh base messenger on the given client and channel |
| MessengerEn.HumanizeRefEn | messenger_en.go:67-72 | the English ref rendering; `MessengerEn.HumanizeRefEnIsHumanizeRef` states it |
| MessengerEn.HumanizeRefEnIsHumanizeRef | messenger_en.go:67-72 | the English ref rendering agrees with hook.go's on every ref |
| MessengerEn.WithNumEn | messenger_en.go:92-97 | the English count rendering; `MessengerEn.WithNumEnIsWithNum` states it |
| MessengerEn.WithNumEnIsWithNum | messenger_en.go:92-97 | the English count rendering agrees with hook.go's on every count |
| MessengerEn.AbbreviationEn | messenger_en.go:74-86 | the result of `abbrCommentEn`; its contract is stated by `MessengerEn.AbbreviationEnSpec` and `MessengerEn.AbbreviationEnHasNoNewline` |
| MessengerEn.AbbreviationEnSpec | messenger_en.go:74-86 | the same cut as `abbrComment`; the marker reports the byte length of the dropped tail, stopping rune included; that length is at least 1, and together with the kept bytes it makes up the whole body |
| MessengerEn.AbbreviationEnHasNoNewline | messenger_en.go:74-86 | the abbreviated body contains no CR or LF |
| MessengerEn.AbbrCommentEn | messenger_en.go:74-86 | the loop, which also tracks the byte offset, returns exactly the abbreviation |
| MessengerEn.PushLinesEnSpec | messenger_en.go:17-26 | a push sends a header with sender, pluralised count, ref and compare URL, then one line per commit in order |
| MessengerEn.IssuesLinesEnSpec | messenger_en.go:28-37 | an opened or closed issue sends one line with sender, action, number, title and URL; other actions send nothing |
| MessengerEn.IssueCommentLinesEnSpec | messenger_en.go:39-49 | a created comment sends a header with sender, number, title and issue URL, then the abbreviated body; other actions send nothing |
| MessengerEn.PullRequestLinesEnSpec | messenger_en.go:51-65 | a pull request line says `merged` for a merged close, `closed` for an unmerged one, and the action otherwise; actions other than opened, closed and reopened send nothing |
| MessengerEn.IrcMessengerEn.OnPush | messenger_en.go:17-26 | the queue gains the `PRIVMSG` entries of the push lines, in order; the wire and the disconnect signal are unchanged |
| MessengerEn.IrcMessengerEn.OnIssues | messenger_en.go:28-37 | the queue gains the entries of the issue lines and nothing else changes |
| MessengerEn.IrcMessengerEn.OnIssueComment | messenger_en.go:39-49 | the queue gains the entries of the comment lines and nothing else changes |
| MessengerEn.IrcMessengerEn.OnPullRequest | messenger_en.go:51-65 | the queue gains the entries of the pull request lines and nothing else changes |
| MessengerZh.IrcMessengerZh.constructor | messenger_zh.go:13-15 | `MakeIRCMessengerZh` gives a fresh base messenger on the given client and channel |
| MessengerZh.Lookup | messenger_zh.go:35 | Go's map index: the table's entry, or the empty string for a missing key; the two tables `IssueActionMap` (messenger_zh.go:26-29) and `PullRequestActionMap` (messenger_zh.go:54-59) are constants, stated by `MessengerZh.IssuePhrases` and `MessengerZh.PullRequestPhrases` |
| MessengerZh.IssuePhrases | messenger_zh.go:26-36 | an opened issue is phrased 提出了 and a closed one 关闭了; a shown issue action always has a phrase |
| MessengerZh.PullRequestPhrases | messenger_zh.go:54-71 | after relabelling, every shown pull request action has an entry in the table, so its phrase is never empty; the phrase is 合并了 exactly for a merged close |
| MessengerZh.HumanizeRefZh | messenger_zh.go:77-82 | the Chinese ref rendering; stated by `MessengerZh.HumanizeBranchRefZh` and `MessengerZh.HumanizeOtherRefZh` |
| MessengerZh.HumanizeBranchRefZh | messenger_zh.go:77-82 | `refs/heads/<name>` becomes `<name> 分支` |
| MessengerZh.HumanizeOtherRefZh | messenger_zh.go:77-82 | any other ref is kept as it is |
| MessengerZh.AbbreviationZh | messenger_zh.go:84-96 | the result of `abbrCommentZh`; stated by `MessengerZh.AbbreviationZhSpec` and `MessengerZh.AbbreviationZhHasNoNewline` |
| MessengerZh.AbbreviationZhSpec | messenger_zh.go:84-96 | the same cut as `abbrComment`; the marker `(略去 N 字节)` reports the byte length of the dropped tail, at least 1 |
| MessengerZh.AbbreviationZhHasNoNewline | messenger_zh.go:84-96 | the abbreviated body contains no CR or LF |
| MessengerZh.AbbrCommentZh | messenger_zh.go:84-96 | the loop returns exactly the abbreviation |
| MessengerZh.PushLinesZhSpec | messenger_zh.go:17-24 | a push sends `<sender> 向 <ref>推了 <n> 个 commit：` with no singular form, then one line per commit in order |
| MessengerZh.IssuesLinesZhSpec | messenger_zh.go:31-40 | an opened issue reads 提出了 and a closed one 关闭了, with number, title and HTML URL; other actions send nothing |
| MessengerZh.IssueCommentLinesZhSpec | messenger_zh.go:42-52 | a created comment sends a header with sender, number, title and HTML URL, then the abbreviated body; other actions send nothing |
| MessengerZh.PullRequestLinesZhSpec | messenger_zh.go:61-75 | a pull request line reads 合并了 for a merged close, 关闭了 for an unmerged one, and 提出了 and 重开了 for opened and reopened; other actions send nothing |
| MessengerZh.IrcMessengerZh.OnPush | messenger_zh.go:17-24 | the queue gains the `PRIVMSG` entries of the push lines, in order; the wire and the disconnect signal are unchanged |
| MessengerZh.IrcMessengerZh.OnIssues | messenger_zh.go:31-40 | the queue gains the entries of the issue lines and nothing else changes |
| MessengerZh.IrcMessengerZh.OnIssueComment | messenger_zh.go:42-52 | the queue gains the entries of the comment lines and nothing else changes |
| MessengerZh.IrcMessengerZh.OnPullRequest | messenger_zh.go:61-75 | the queue gains the entries of the pull request lines and nothing else changes |

## Findings

| source | as written | input that shows it | evidently intended | confidence | as-written member | corrected member |
|---|---|---|---|---|---|---|
| irc.go:56-58 | each turn of the writer loop calls `c.Lock()` and defers `c.Unlock()`. The deferred unlock runs only when the goroutine returns, and while the queue is open it never does, so the second turn blocks forever on a mutex it already holds | queue `NICK ghbot`, then `JOIN :#ghbot`: the nick line is written and the join never is; every later message stays queued, and once 1024 are waiting every `Send` blocks | release the mutex at the end of each turn, so every queued message is written in order | high; not executed | Irc.DeliveredAsWrittenLosesMessages | Irc.DeliveredAllOk |

`Irc.DeliveredAsWritten` models the loop as written. `Irc.DeliveredAsWrittenOnlyFirst`
and `Irc.WriterDeadlockExample` show that only the first message gets out.
`Irc.Delivered` and `Irc.IrcClient.WriteAll` model the corrected loop, and the rest
of the model uses them. For it, `Irc.DeliveredAllOk` and `Irc.DeliveredInOrder`
prove that every message is delivered, in order.

## Left out

- Network I/O: the TLS dial to the IRC server, `conn.Read` and `conn.Write`. Read results and write outcomes are inputs; a partial write counts as a success or a failure.
- Concurrency: the two goroutines run one after the other in the model, and the mutex appears only in the Findings model of the writer. Blocking on a full queue is the precondition `|queue| < 1024` of `Send`, `Message` and the handlers.
- Timing: the write deadline (irc.go:59) and the two-second pause between messages (irc.go:64).
- Logging: every `log.Print…` call, including the one for each chunk the server sends.
- JSON decoding (`json.Unmarshal`, hook.go:68-76): replaced by the `Decodings` input.
- `Messagef` (messenger.go:19-21) and `Sendf` (irc.go:74-76): the handlers' format strings are written out as concatenations passed to `Message` and `Send`. General `fmt.Sprintf` is not modelled; only `%s` and `%d` occur.
- Irc.PongReply: a chunk is the `buf[:nr]` of one read, a string with one char per byte (every char below 256) and at most `readBufSize`, 4096, of them (irc.go:38-40). It requires a chunk that starts with `PING` to have at least 6 bytes. A shorter one makes the slice `buf[4:nr-2]` panic (irc.go:47), and the model has no panic path. Each chunk is also assumed to hold one whole line, as the source assumes.
- Irc.PongReply: a `PONG` entry keeps the chunk's one-char-per-byte form, while `PRIVMSG` entries hold Unicode scalar values, so `wire` mixes the two readings of `char`. They agree on ASCII, which the IRC protocol lines use. A token with bytes of 128 or more, such as E4 B8 AD, enters the queue as the chars U+00E4 U+00B8 U+00AD, where Go writes back the original bytes.
- Invalid UTF-8 in a comment body: `range` would yield U+FFFD for each bad byte, and `s[:i]` would keep the raw bytes. A `string` here holds only valid scalar values.
- Go `int` width: issue and pull request numbers are unbounded integers. `%d` prints them the same either way.
- main.go is not part of this model: reading the init messages, the JOIN, the HTTP handler, the `-channels` list with one messenger per channel, the dispatch of every event to every messenger, and the QUIT on shutdown. The same goes for the later `eventToMessage(eventType, body, m)` dispatcher it calls, which is not among the files modelled.
- The `Messenger` interface and the embedding of `IRCMessengerBase`: each language messenger holds an `IrcMessenger` as `base`.
