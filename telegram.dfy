/** The message-sending half of TelegramSidekick: chunk_message and the loop of
    send_message. The Bot API call itself is not modelled; what the loop hands
    to it, in order, is the method's result. */
module Telegram {

  /** telegram.constants.MAX_MESSAGE_LENGTH of python-telegram-bot. */
  const MAX_MESSAGE_LENGTH: nat := 4096

  /** The pieces of a sequence of strings, joined end to end. */
  function Concat(ss: seq<string>): string
  {
    if ss == [] then "" else Concat(ss[..|ss| - 1]) + ss[|ss| - 1]
  }

  lemma {:induction false} ConcatAppend(a: seq<string>, b: seq<string>)
    ensures Concat(a + b) == Concat(a) + Concat(b)
    decreases |b|
  {
    if b == [] {
      assert a + b == a;
    } else {
      assert (a + b)[..|a + b| - 1] == a + b[..|b| - 1];
      ConcatAppend(a, b[..|b| - 1]);
    }
  }

  /** What chunk_message returns: leading pieces of exactly maxLength
      characters while more than maxLength remain, then the rest. */
  function Chunks(msg: string, maxLength: nat): seq<string>
    requires maxLength > 0
    decreases |msg|
  {
    if |msg| > maxLength then [msg[..maxLength]] + Chunks(msg[maxLength..], maxLength)
    else [msg]
  }

  /** The chunks rebuild the message, none is longer than maxLength, all but
      the last are exactly maxLength long, and there is at least one. */
  lemma {:induction false} ChunksSpec(msg: string, maxLength: nat)
    requires maxLength > 0
    ensures var ms := Chunks(msg, maxLength);
      && |ms| >= 1
      && Concat(ms) == msg
      && (forall i :: 0 <= i < |ms| ==> |ms[i]| <= maxLength)
      && (forall i :: 0 <= i < |ms| - 1 ==> |ms[i]| == maxLength)
    decreases |msg|
  {
    if |msg| > maxLength {
      var rest := Chunks(msg[maxLength..], maxLength);
      ChunksSpec(msg[maxLength..], maxLength);
      ConcatAppend([msg[..maxLength]], rest);
      assert Concat([msg[..maxLength]]) == msg[..maxLength] by {
        assert [msg[..maxLength]][..0] == [];
      }
      assert msg == msg[..maxLength] + msg[maxLength..];
    } else {
      assert [msg][..0] == [];
    }
  }

  /** A non-empty message is never split into an empty piece. */
  lemma {:induction false} ChunksNonEmpty(msg: string, maxLength: nat)
    requires maxLength > 0 && |msg| > 0
    ensures forall i :: 0 <= i < |Chunks(msg, maxLength)| ==> |Chunks(msg, maxLength)[i]| > 0
    decreases |msg|
  {
    if |msg| > maxLength {
      ChunksNonEmpty(msg[maxLength..], maxLength);
    }
  }

  /** chunk_message, for a positive bound (with a bound of 0 the source loops
      forever on any non-empty message). */
  method ChunkMessage(msg: string, maxLength: nat) returns (ms: seq<string>)
    requires maxLength > 0
    ensures ms == Chunks(msg, maxLength)
    ensures |ms| >= 1 && Concat(ms) == msg
    ensures forall i :: 0 <= i < |ms| ==> |ms[i]| <= maxLength
    ensures forall i :: 0 <= i < |ms| - 1 ==> |ms[i]| == maxLength
    ensures msg == "" ==> ms == [""]
  {
    ms := [];
    var rest := msg;
    while |rest| > maxLength
      invariant ms + Chunks(rest, maxLength) == Chunks(msg, maxLength)
      decreases |rest|
    {
      ms := ms + [rest[..maxLength]];
      rest := rest[maxLength..];
    }
    ms := ms + [rest];
    ChunksSpec(msg, maxLength);
  }

  /** What send_message hands to the Bot for one message: nothing for an
      empty one, its chunks for an over-long one, the message itself otherwise. */
  function PlanOne(msg: string): seq<string>
  {
    if |msg| == 0 then []
    else if |msg| > MAX_MESSAGE_LENGTH then Chunks(msg, MAX_MESSAGE_LENGTH)
    else [msg]
  }

  /** What send_message hands to the Bot for a list of messages, in order. */
  function Planned(messages: seq<string>): seq<string>
  {
    if messages == [] then []
    else Planned(messages[..|messages| - 1]) + PlanOne(messages[|messages| - 1])
  }

  /** The non-empty messages, in order. */
  function NonEmpty(messages: seq<string>): seq<string>
  {
    if messages == [] then []
    else
      var last := messages[|messages| - 1];
      NonEmpty(messages[..|messages| - 1]) + (if last == "" then [] else [last])
  }

  /** The pieces planned for one message rebuild it, and each is non-empty
      and within the Bot's length limit. */
  lemma PlanOneSpec(msg: string)
    ensures var pieces := PlanOne(msg);
      && Concat(pieces) == msg
      && forall i :: 0 <= i < |pieces| ==> 0 < |pieces[i]| <= MAX_MESSAGE_LENGTH
  {
    if |msg| > MAX_MESSAGE_LENGTH {
      ChunksSpec(msg, MAX_MESSAGE_LENGTH);
      ChunksNonEmpty(msg, MAX_MESSAGE_LENGTH);
    } else if |msg| > 0 {
      assert [msg][..0] == [];
    }
  }

  /** Every piece sent is non-empty and within the Bot's length limit, and
      the pieces rebuild the messages. */
  lemma {:induction false} PlannedSpec(messages: seq<string>)
    ensures var sent := Planned(messages);
      && Concat(sent) == Concat(messages)
      && forall i :: 0 <= i < |sent| ==> 0 < |sent[i]| <= MAX_MESSAGE_LENGTH
    decreases |messages|
  {
    if messages != [] {
      var init, last := messages[..|messages| - 1], messages[|messages| - 1];
      var front, pieces := Planned(init), PlanOne(last);
      PlannedSpec(init);
      PlanOneSpec(last);
      ConcatAppend(front, pieces);
      assert Planned(messages) == front + pieces;
      forall i | 0 <= i < |front + pieces|
        ensures 0 < |(front + pieces)[i]| <= MAX_MESSAGE_LENGTH
      {
        if i >= |front| {
          assert (front + pieces)[i] == pieces[i - |front|];
        }
      }
    }
  }

  /** When no message exceeds the limit, exactly the non-empty messages are
      sent, each whole. */
  lemma {:induction false} PlannedShort(messages: seq<string>)
    requires forall i :: 0 <= i < |messages| ==> |messages[i]| <= MAX_MESSAGE_LENGTH
    ensures Planned(messages) == NonEmpty(messages)
    decreases |messages|
  {
    if messages != [] {
      PlannedShort(messages[..|messages| - 1]);
    }
  }

  /** The for loop of send_message; the result is the sequence of texts
      passed to the Bot, in order. */
  method SendMessage(messages: seq<string>) returns (sent: seq<string>)
    ensures sent == Planned(messages)
    ensures Concat(sent) == Concat(messages)
    ensures forall i :: 0 <= i < |sent| ==> 0 < |sent[i]| <= MAX_MESSAGE_LENGTH
  {
    sent := [];
    var k := 0;
    while k < |messages|
      invariant 0 <= k <= |messages|
      invariant sent == Planned(messages[..k])
    {
      var msg := messages[k];
      assert messages[..k + 1][..k] == messages[..k];
      if |msg| == 0 {
      } else if |msg| > MAX_MESSAGE_LENGTH {
        var ms := ChunkMessage(msg, MAX_MESSAGE_LENGTH);
        var j := 0;
        while j < |ms|
          invariant 0 <= j <= |ms|
          invariant sent == Planned(messages[..k]) + ms[..j]
        {
          sent := sent + [ms[j]];
          j := j + 1;
          assert ms[..j] == ms[..j - 1] + [ms[j - 1]];
        }
      } else {
        sent := sent + [msg];
      }
      k := k + 1;
    }
    assert messages[..k] == messages;
    PlannedSpec(messages);
  }
}
