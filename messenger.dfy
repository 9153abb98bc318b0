/**
 * messenger.go: a messenger bound to one client and one channel. `Message` wraps
 * a line as `PRIVMSG #<channel> :<text>` and sends it on the client's queue. The
 * per-language messengers build on it.
 */
module Messenger {
  import opened Wrappers
  import opened Irc

  /** The protocol line that carries `text` to `channel`. */
  function Privmsg(channel: string, text: string): string
  {
    "PRIVMSG #" + channel + " :" + text
  }

  /** The text a `PRIVMSG` line for `channel` carries; the reading direction of `Privmsg`. */
  function PrivmsgText(channel: string, line: string): Option<string>
  {
    var head := "PRIVMSG #" + channel + " :";
    if head <= line then Some(line[|head|..]) else None
  }

  /** The text goes out verbatim: no truncation, escaping or splitting. */
  lemma PrivmsgTextOfPrivmsg(channel: string, text: string)
    ensures PrivmsgText(channel, Privmsg(channel, text)) == Some(text)
  {
    var head := "PRIVMSG #" + channel + " :";
    assert Privmsg(channel, text) == head + text;
    assert (head + text)[|head|..] == text;
  }

  /** The queue entries for a sequence of lines sent to `channel`, in order. */
  function Privmsgs(channel: string, lines: seq<string>): (r: seq<string>)
    ensures |r| == |lines|
  {
    if lines == [] then [] else [Privmsg(channel, lines[0])] + Privmsgs(channel, lines[1..])
  }

  lemma {:induction false} PrivmsgsAt(channel: string, lines: seq<string>)
    ensures forall i :: 0 <= i < |lines| ==> Privmsgs(channel, lines)[i] == Privmsg(channel, lines[i])
  {
    if lines != [] {
      PrivmsgsAt(channel, lines[1..]);
    }
  }

  /** Sending `a` and then `b` queues the lines of `a` and then those of `b`. */
  lemma {:induction false} PrivmsgsAppend(channel: string, a: seq<string>, b: seq<string>)
    ensures Privmsgs(channel, a + b) == Privmsgs(channel, a) + Privmsgs(channel, b)
  {
    if a == [] {
      assert a + b == b;
    } else {
      assert (a + b)[1..] == a[1..] + b;
      PrivmsgsAppend(channel, a[1..], b);
    }
  }

  /** Sending one more line queues its `PRIVMSG` entry last. */
  lemma PrivmsgsSnoc(channel: string, lines: seq<string>, line: string)
    ensures Privmsgs(channel, lines + [line]) == Privmsgs(channel, lines) + [Privmsg(channel, line)]
  {
    PrivmsgsAppend(channel, lines, [line]);
  }

  class IrcMessenger {
    var client: IrcClient
    var channel: string

    constructor (client: IrcClient, channel: string)
      ensures this.client == client && this.channel == channel
    {
      this.client := client;
      this.channel := channel;
    }

    /**
     * `Message`: exactly one entry, the `PRIVMSG` line for `msg`, joins the back of
     * the client's queue; nothing else changes.
     */
    method Message(msg: string)
      requires client.Valid() && |client.queue| < QueueCapacity
      modifies client
      ensures client.Valid()
      ensures client.queue == old(client.queue) + [Privmsg(channel, msg)]
      ensures client.wire == old(client.wire) && client.disconnected == old(client.disconnected)
      ensures client == old(client) && channel == old(channel)
    {
      client.Send("PRIVMSG #" + channel + " :" + msg);
    }
  }
}
