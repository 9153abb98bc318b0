/**
 * irc.go: the client's outbound queue. `Send` appends to the queue; the writer
 * loop takes messages from its front and writes each followed by CR LF; the
 * reader loop answers every chunk that starts with `PING` by queueing a `PONG`,
 * and closes the disconnect signal when a read fails. The connection is left
 * out: the writer's outcome per message and the reader's results are inputs, and
 * `wire` records the framed lines that were written successfully.
 */
module Irc {
  import opened Wrappers

  /** The capacity of the queue channel; `Send` blocks on a full queue. */
  const QueueCapacity: nat := 1024

  /** The size of the reader's buffer, which bounds one chunk. */
  const ReadBufSize: nat := 4096

  const Ping: string := "PING"

  const CrLf: string := "\r\n"

  // ---------------------------------------------------------------------------
  // Writer
  // ---------------------------------------------------------------------------

  /** The bytes the writer puts on the wire for one queued message. */
  function Frame(msg: string): string
  {
    msg + CrLf
  }

  /** The message a framed line carries; the reading direction of `Frame`. */
  function Unframe(line: string): Option<string>
  {
    if |line| >= 2 && line[|line| - 2..] == CrLf then Some(line[..|line| - 2]) else None
  }

  lemma UnframeFrame(msg: string)
    ensures Unframe(Frame(msg)) == Some(msg)
  {
    assert Frame(msg)[|Frame(msg)| - 2..] == CrLf;
    assert Frame(msg)[..|Frame(msg)| - 2] == msg;
  }

  /** The framed lines that reach the wire when the queued `msgs` are written with outcomes `ok`. */
  function Delivered(msgs: seq<string>, ok: seq<bool>): (r: seq<string>)
    requires |ok| == |msgs|
  {
    if msgs == [] then []
    else (if ok[0] then [Frame(msgs[0])] else []) + Delivered(msgs[1..], ok[1..])
  }

  function CountOk(ok: seq<bool>): nat
  {
    if ok == [] then 0 else (if ok[0] then 1 else 0) + CountOk(ok[1..])
  }

  /**
   * Writes happen in queue order and a failed write only drops its own message:
   * the `i`-th message, when its write succeeds, is the line after those of the
   * successful writes before it.
   */
  lemma {:induction false} DeliveredInOrder(msgs: seq<string>, ok: seq<bool>)
    requires |ok| == |msgs|
    ensures |Delivered(msgs, ok)| == CountOk(ok)
    ensures forall i :: 0 <= i < |msgs| && ok[i] ==>
      CountOk(ok[..i]) < |Delivered(msgs, ok)| && Delivered(msgs, ok)[CountOk(ok[..i])] == Frame(msgs[i])
  {
    if msgs != [] {
      DeliveredInOrder(msgs[1..], ok[1..]);
      forall i | 0 <= i < |msgs| && ok[i]
        ensures CountOk(ok[..i]) < |Delivered(msgs, ok)| && Delivered(msgs, ok)[CountOk(ok[..i])] == Frame(msgs[i])
      {
        if i > 0 {
          assert ok[..i][1..] == ok[1..][..i - 1];
          assert msgs[1..][i - 1] == msgs[i];
          assert ok[1..][i - 1] == ok[i];
        } else {
          assert ok[..0] == [];
        }
      }
    }
  }

  /** When every write succeeds the wire carries every message, framed, in queue order. */
  lemma {:induction false} DeliveredAllOk(msgs: seq<string>, ok: seq<bool>)
    requires |ok| == |msgs|
    requires forall i :: 0 <= i < |ok| ==> ok[i]
    ensures |Delivered(msgs, ok)| == |msgs|
    ensures forall i :: 0 <= i < |msgs| ==> Delivered(msgs, ok)[i] == Frame(msgs[i])
  {
    if msgs != [] {
      DeliveredAllOk(msgs[1..], ok[1..]);
    }
  }

  /**
   * The writer loop as irc.go has it: each turn takes the client's mutex, and the
   * matching unlock is deferred to the end of the goroutine, which does not come
   * while the queue is open. `locked` says whether an earlier turn still holds the
   * mutex; a turn that finds it held blocks for good, and nothing after it is written.
   */
  function DeliveredAsWritten(msgs: seq<string>, ok: seq<bool>, locked: bool): seq<string>
    requires |ok| == |msgs|
  {
    if msgs == [] || locked then []
    else (if ok[0] then [Frame(msgs[0])] else []) + DeliveredAsWritten(msgs[1..], ok[1..], true)
  }

  /** As written, the first queued message is the only one that can reach the wire. */
  lemma DeliveredAsWrittenOnlyFirst(msgs: seq<string>, ok: seq<bool>)
    requires |ok| == |msgs| && msgs != []
    ensures DeliveredAsWritten(msgs, ok, false) == Delivered(msgs[..1], ok[..1])
    ensures |DeliveredAsWritten(msgs, ok, false)| <= 1
  {
    assert msgs[..1][1..] == [];
  }

  /**
   * So as soon as a second message is written successfully, the wire as written
   * differs from the intended one, which has one line per successful write.
   */
  lemma DeliveredAsWrittenLosesMessages(msgs: seq<string>, ok: seq<bool>)
    requires |ok| == |msgs| && |msgs| >= 2 && ok[1]
    ensures DeliveredAsWritten(msgs, ok, false) != Delivered(msgs, ok)
  {
    DeliveredAsWrittenOnlyFirst(msgs, ok);
    DeliveredInOrder(msgs, ok);
    assert ok[1..][0];
    assert CountOk(ok[1..]) >= 1;
    assert CountOk(ok) >= (if ok[0] then 1 else 0) + 1;
    assert |Delivered(msgs[..1], ok[..1])| == (if ok[0] then 1 else 0) by {
      assert msgs[..1][1..] == [];
    }
  }

  /** The start-up sequence as it happens: a nick line and a join, and the join never goes out. */
  lemma WriterDeadlockExample()
    ensures DeliveredAsWritten(["NICK ghbot", "JOIN :#ghbot"], [true, true], false) == [Frame("NICK ghbot")]
    ensures Delivered(["NICK ghbot", "JOIN :#ghbot"], [true, true]) == [Frame("NICK ghbot"), Frame("JOIN :#ghbot")]
  {
    var msgs, ok := ["NICK ghbot", "JOIN :#ghbot"], [true, true];
    assert msgs[1..] == ["JOIN :#ghbot"] && ok[1..] == [true];
    assert msgs[1..][1..] == [] && ok[1..][1..] == [];
  }

  // ---------------------------------------------------------------------------
  // Reader
  // ---------------------------------------------------------------------------

  /** A string whose every char stands for one byte, as the reader's chunks do. */
  predicate IsByteString(s: string) {
    forall i :: 0 <= i < |s| ==> (s[i] as int) < 256
  }

  /**
   * A chunk the reader can get and handle: at most one buffer of bytes, one char per
   * byte, and, when it starts with `PING`, at least six bytes, or the slice
   * `buf[4:nr-2]` is out of range.
   */
  predicate ChunkOk(chunk: string) {
    |chunk| <= ReadBufSize && IsByteString(chunk) && (Ping <= chunk ==> |chunk| >= 6)
  }

  /** What the reader queues for one chunk: `PONG` and the chunk after `PING`, less its last two bytes. */
  function PongReply(chunk: string): (r: seq<string>)
    requires ChunkOk(chunk)
    ensures |r| <= 1
  {
    if Ping <= chunk then ["PONG" + chunk[|Ping|..|chunk| - 2]] else []
  }

  /** The reply echoes the token of a `PING <token>` line, and nothing else is answered. */
  lemma PongEchoesToken(token: string)
    requires IsByteString(token) && |token| + 6 <= ReadBufSize
    ensures ChunkOk(Ping + token + CrLf) && PongReply(Ping + token + CrLf) == ["PONG" + token]
  {
    var chunk := Ping + token + CrLf;
    assert chunk[..4] == Ping;
    assert forall i :: 0 <= i < |chunk| ==> chunk[i] == (if i < 4 then Ping[i] else if i < 4 + |token| then token[i - 4] else CrLf[i - 4 - |token|]);
    assert chunk[|Ping|..|chunk| - 2] == token;
  }

  lemma PongExample()
    ensures PongReply("PING :x\r\n") == ["PONG :x"]
  {
    var chunk := "PING :x\r\n";
    assert chunk[..4] == Ping;
    assert chunk[|Ping|..|chunk| - 2] == " :x";
    assert "PONG" + " :x" == "PONG :x";
  }

  lemma NoPongWithoutPing(chunk: string)
    requires ChunkOk(chunk) && !(Ping <= chunk)
    ensures PongReply(chunk) == []
  {
  }

  /** The result of one `conn.Read`: the bytes read, or an error (a closed connection included). */
  datatype ReadResult = Chunk(data: string) | ReadError

  /** Every chunk the reader gets to (those before the first error) can be handled. */
  predicate ReadsOk(results: seq<ReadResult>) {
    results == [] || results[0].ReadError? || (ChunkOk(results[0].data) && ReadsOk(results[1..]))
  }

  /** The replies the reader queues for `results`: one per `PING` chunk before the first error. */
  function Replies(results: seq<ReadResult>): seq<string>
    requires ReadsOk(results)
  {
    if results == [] then []
    else match results[0]
      case ReadError => []
      case Chunk(data) => PongReply(data) + Replies(results[1..])
  }

  /** The reader's step over one chunk: its reply comes first, then those for the rest. */
  lemma RepliesStep(results: seq<ReadResult>, k: nat)
    requires k < |results| && results[k].Chunk? && ReadsOk(results[k..])
    ensures ChunkOk(results[k].data) && ReadsOk(results[k + 1..])
    ensures Replies(results[k..]) == PongReply(results[k].data) + Replies(results[k + 1..])
  {
    assert results[k..][1..] == results[k + 1..];
  }

  predicate HasReadError(results: seq<ReadResult>) {
    exists i :: 0 <= i < |results| && results[i].ReadError?
  }

  /** Nothing read after the first error is answered: the loop has ended. */
  lemma {:induction false} RepliesStopAtError(results: seq<ReadResult>, i: nat)
    requires ReadsOk(results) && i < |results| && results[i].ReadError?
    ensures ReadsOk(results[..i]) && Replies(results) == Replies(results[..i])
  {
    if i > 0 && results[0].Chunk? {
      assert results[1..][i - 1] == results[i];
      RepliesStopAtError(results[1..], i - 1);
      assert results[..i][1..] == results[1..][..i - 1];
    }
  }

  // ---------------------------------------------------------------------------
  // The client
  // ---------------------------------------------------------------------------

  class IrcClient {
    /** The messages sent and not yet taken by the writer, oldest first. */
    var queue: seq<string>
    /** The framed lines the writer has put on the wire, in order. */
    var wire: seq<string>
    /** Whether the disconnect channel has been closed. */
    var disconnected: bool

    ghost predicate Valid()
      reads this
    {
      |queue| <= QueueCapacity
    }

    /** The client `dialIRC` returns: an empty queue, nothing written, still connected. */
    constructor ()
      ensures Valid() && queue == [] && wire == [] && !disconnected
    {
      queue, wire, disconnected := [], [], false;
    }

    /** `Send`: the message joins the back of the queue. */
    method Send(msg: string)
      requires Valid() && |queue| < QueueCapacity
      modifies this
      ensures Valid()
      ensures queue == old(queue) + [msg]
      ensures wire == old(wire) && disconnected == old(disconnected)
    {
      queue := queue + [msg];
    }

    /**
     * One turn of the writer loop: the front message leaves the queue and, when
     * the write succeeds (`ok`), its framed line reaches the wire; a failed write
     * is only logged.
     */
    method WriteNext(ok: bool) returns (msg: string)
      requires Valid() && queue != []
      modifies this
      ensures Valid()
      ensures msg == old(queue)[0] && queue == old(queue)[1..]
      ensures wire == old(wire) + (if ok then [Frame(msg)] else [])
      ensures disconnected == old(disconnected)
    {
      msg := queue[0];
      queue := queue[1..];
      if ok {
        wire := wire + [Frame(msg)];
      }
    }

    /**
     * The writer loop over everything queued, with `ok[i]` the outcome of the `i`-th
     * write, each turn releasing the mutex it took (see `DeliveredAsWritten` for the
     * loop as irc.go has it).
     */
    method WriteAll(ok: seq<bool>)
      requires Valid() && |ok| == |queue|
      modifies this
      ensures Valid() && queue == []
      ensures wire == old(wire) + Delivered(old(queue), ok)
      ensures disconnected == old(disconnected)
    {
      for i := 0 to |ok|
        invariant Valid() && queue == old(queue)[i..]
        invariant wire + Delivered(queue, ok[i..]) == old(wire) + Delivered(old(queue), ok)
        invariant disconnected == old(disconnected)
      {
        assert ok[i..][1..] == ok[i + 1..];
        assert queue[1..] == old(queue)[i + 1..];
        var _ := WriteNext(ok[i]);
      }
    }

    /** The reader's handling of one chunk `buf[:nr]`. */
    method OnRead(chunk: string)
      requires Valid() && ChunkOk(chunk) && |queue| + |PongReply(chunk)| <= QueueCapacity
      modifies this
      ensures Valid()
      ensures queue == old(queue) + PongReply(chunk)
      ensures wire == old(wire) && disconnected == old(disconnected)
    {
      if Ping <= chunk {
        var rest := chunk[|Ping|..|chunk| - 2];
        Send("PONG" + rest);
      }
    }

    /**
     * The reader loop: it answers chunks until the first read error, and then
     * closes the disconnect channel. Without an error among `results` the loop is
     * still waiting for the next read when they run out.
     */
    method ReadLoop(results: seq<ReadResult>)
      requires Valid() && !disconnected && ReadsOk(results)
      requires |queue| + |Replies(results)| <= QueueCapacity
      modifies this
      ensures Valid()
      ensures queue == old(queue) + Replies(results)
      ensures wire == old(wire)
      ensures disconnected == HasReadError(results)
    {
      var k := 0;
      while k < |results|
        invariant k <= |results| && Valid() && ReadsOk(results[k..])
        invariant forall j :: 0 <= j < k ==> results[j].Chunk?
        invariant queue + Replies(results[k..]) == old(queue) + Replies(results)
        invariant |queue| + |Replies(results[k..])| <= QueueCapacity
        invariant wire == old(wire) && !disconnected
      {
        if results[k].ReadError? {
          break;
        }
        RepliesStep(results, k);
        OnRead(results[k].data);
        k := k + 1;
      }
      if k < |results| {
        RepliesStopAtError(results, k);
        disconnected := true;
      } else {
        assert results[k..] == [];
      }
    }
  }
}
