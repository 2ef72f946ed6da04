/**
  Line buffering of the Electron process's output streams
  (src/builders/utils/electron-runner.ts): each decoded chunk is appended to the
  stream's buffer; when the buffer holds a line feed, everything before the
  LAST line feed is logged as one message and the rest is kept.
 */
module LineBuffer {
  import opened Js

  predicate NoNewline(s: string) {
    forall i :: 0 <= i < |s| ==> s[i] != '\n'
  }

  /** `s.lastIndexOf(c)`: the index of the last occurrence of `c`, or -1. */
  function LastIndexOf(s: string, c: char): (i: int)
    ensures -1 <= i < |s|
    ensures i >= 0 ==> s[i] == c
    ensures forall j :: i < j < |s| ==> s[j] != c
  {
    if s == [] then -1
    else if s[|s| - 1] == c then |s| - 1
    else LastIndexOf(s[..|s| - 1], c)
  }

  /** What one chunk does: the message logged, if any, and the new buffer. */
  datatype Fed = Fed(logged: Option<string>, buffer: string)

  function Feed(buffer: string, chunk: string): (r: Fed)
  {
    var full := buffer + chunk;
    var i := LastIndexOf(full, '\n');
    if i >= 0 then Fed(Some(full[..i]), full[i + 1..]) else Fed(None, full)
  }

  /** After a chunk the buffer holds no line feed; a message is logged exactly
      when the buffer plus chunk held one, and then the message, a line feed and
      the new buffer are exactly the buffer plus chunk. */
  lemma FeedSpec(buffer: string, chunk: string)
    ensures NoNewline(Feed(buffer, chunk).buffer)
    ensures Feed(buffer, chunk).logged.Some? <==> !NoNewline(buffer + chunk)
    ensures Feed(buffer, chunk).logged.Some? ==>
      Feed(buffer, chunk).logged.value + "\n" + Feed(buffer, chunk).buffer == buffer + chunk
    ensures Feed(buffer, chunk).logged.None? ==> Feed(buffer, chunk).buffer == buffer + chunk
  {
    var full := buffer + chunk;
    var i := LastIndexOf(full, '\n');
    FeedText(buffer, chunk);
    if i >= 0 {
      var rest := full[i + 1..];
      forall j | 0 <= j < |rest| ensures rest[j] != '\n' {
        assert rest[j] == full[i + 1 + j];
      }
    }
  }

  /** The text part of `FeedSpec`: nothing of buffer + chunk is lost. */
  lemma FeedText(buffer: string, chunk: string)
    ensures Feed(buffer, chunk).logged.Some? ==>
      Feed(buffer, chunk).logged.value + "\n" + Feed(buffer, chunk).buffer == buffer + chunk
    ensures Feed(buffer, chunk).logged.None? ==> Feed(buffer, chunk).buffer == buffer + chunk
  {
    var full := buffer + chunk;
    var i := LastIndexOf(full, '\n');
    if i >= 0 {
      assert full[..i] + "\n" + full[i + 1..] == full;
    }
  }

  /** The concatenation of all chunks. */
  function Concat(chunks: seq<string>): string {
    if chunks == [] then "" else Concat(chunks[..|chunks| - 1]) + chunks[|chunks| - 1]
  }

  /** Every logged message followed by the line feed that ended it. */
  function Terminated(messages: seq<string>): string {
    if messages == [] then "" else Terminated(messages[..|messages| - 1]) + messages[|messages| - 1] + "\n"
  }

  /** The messages logged and the buffer left after a sequence of chunks. */
  datatype Stream = Stream(messages: seq<string>, buffer: string)

  function FeedAll(start: string, chunks: seq<string>): Stream
  {
    if chunks == [] then Stream([], start)
    else
      var before := FeedAll(start, chunks[..|chunks| - 1]);
      var fed := Feed(before.buffer, chunks[|chunks| - 1]);
      Stream(before.messages + (if fed.logged.Some? then [fed.logged.value] else []), fed.buffer)
  }

  /** No output is lost or duplicated: the logged messages, each followed by a
      line feed, then the remaining buffer, spell out the starting buffer and all
      chunks in order. */
  lemma {:induction false} FeedAllPreservesText(start: string, chunks: seq<string>)
    ensures Terminated(FeedAll(start, chunks).messages) + FeedAll(start, chunks).buffer == start + Concat(chunks)
  {
    if chunks != [] {
      var init := chunks[..|chunks| - 1];
      var last := chunks[|chunks| - 1];
      FeedAllPreservesText(start, init);
      var before := FeedAll(start, init);
      var fed := Feed(before.buffer, last);
      FeedText(before.buffer, last);
      StepPreservesText(before.messages, before.buffer, fed, last, start + Concat(init));
      assert start + Concat(chunks) == (start + Concat(init)) + last;
    }
  }

  /** Once a chunk has been fed, the remaining buffer holds no line feed. */
  lemma FeedAllLeavesNoNewline(start: string, chunks: seq<string>)
    requires chunks != []
    ensures NoNewline(FeedAll(start, chunks).buffer)
  {
    FeedSpec(FeedAll(start, chunks[..|chunks| - 1]).buffer, chunks[|chunks| - 1]);
  }

  /** One more chunk keeps the text accounted for, given what `FeedSpec` says of its `Fed`. */
  lemma StepPreservesText(messages: seq<string>, buffer: string, fed: Fed, last: string, text: string)
    requires Terminated(messages) + buffer == text
    requires fed.logged.Some? ==> fed.logged.value + "\n" + fed.buffer == buffer + last
    requires fed.logged.None? ==> fed.buffer == buffer + last
    ensures Terminated(messages + (if fed.logged.Some? then [fed.logged.value] else [])) + fed.buffer == text + last
  {
    var msgs := messages + (if fed.logged.Some? then [fed.logged.value] else []);
    var t := Terminated(messages);
    if fed.logged.Some? {
      var l := fed.logged.value;
      assert msgs[..|msgs| - 1] == messages;
      assert Terminated(msgs) == t + l + "\n";
      calc {
        Terminated(msgs) + fed.buffer;
        t + (l + "\n" + fed.buffer);
        t + (buffer + last);
        (t + buffer) + last;
      }
    } else {
      assert msgs == messages;
      assert t + (buffer + last) == (t + buffer) + last;
    }
  }
}
