/**
  The message transform of `PrefixLogger` (src/builders/utils/prefix-logger.ts).
  With `logPrefix` on, every log entry's message is written as
  "[prefix] " followed by the message in which every line feed is followed by
  "[prefix] " again, and the entry's `path` is emptied; with it off, entries
  pass through unchanged. The optional ANSI style function is not modelled.
 */
module PrefixLogging {
  import opened Js
  import Text

  datatype LogLevel = Debug | Info | Warn | Error | Fatal

  /** A log entry of the host logging framework. */
  datatype LogEntry = LogEntry(level: LogLevel, name: string, message: string, path: seq<string>, timestamp: int)

  /** The settings of one PrefixLogger. */
  datatype PrefixLogger = PrefixLogger(prefix: string, logPrefix: bool)

  /** The constructor; an omitted `logPrefix` means false. */
  function NewPrefixLogger(prefix: string, logPrefix: Option<bool>): (l: PrefixLogger)
    ensures l.prefix == prefix
    ensures l.logPrefix <==> logPrefix == Some(true)
  {
    PrefixLogger(prefix, if logPrefix.Some? then logPrefix.value else false)
  }

  /** "[prefix] ". */
  function Tag(prefix: string): string {
    "[" + prefix + "] "
  }

  /** `s.replace(/\n/g, replacement)`. */
  function ReplaceNewlines(s: string, replacement: string): string {
    if s == [] then []
    else (if s[0] == '\n' then replacement else [s[0]]) + ReplaceNewlines(s[1..], replacement)
  }

  /** The prefixed message. */
  function PrefixMessage(prefix: string, message: string): string {
    Tag(prefix) + ReplaceNewlines(message, "\n" + Tag(prefix))
  }

  /** The transform the logger applies to every entry. */
  function Transform(l: PrefixLogger, e: LogEntry): (r: LogEntry)
    ensures r.level == e.level && r.name == e.name && r.timestamp == e.timestamp
    ensures !l.logPrefix ==> r == e
    ensures l.logPrefix ==> r.message == PrefixMessage(l.prefix, e.message) && r.path == []
  {
    if !l.logPrefix then e
    else e.(message := PrefixMessage(l.prefix, e.message), path := [])
  }

  predicate NoNewline(s: string) {
    forall i :: 0 <= i < |s| ==> s[i] != '\n'
  }

  /** The lines of `s`: the pieces between line feeds (always at least one). */
  function Lines(s: string): (ls: seq<string>)
    ensures |ls| >= 1
  {
    if s == [] then [""]
    else
      var rest := Lines(s[1..]);
      if s[0] == '\n' then [""] + rest else [[s[0]] + rest[0]] + rest[1..]
  }

  /** Every line of `ls` with `t` put in front. */
  function PrefixAll(t: string, ls: seq<string>): (r: seq<string>)
    ensures |r| == |ls|
  {
    seq(|ls|, i requires 0 <= i < |ls| => t + ls[i])
  }

  /** Every line of `ls` with its first `n` characters removed. */
  function DropAll(n: nat, ls: seq<string>): seq<string>
    requires forall i :: 0 <= i < |ls| ==> n <= |ls[i]|
  {
    seq(|ls|, i requires 0 <= i < |ls| => ls[i][n..])
  }

  /** Joining the lines of `s` with line feeds gives `s` back. */
  lemma {:induction false} JoinLines(s: string)
    ensures Text.Join(Lines(s), "\n") == s
  {
    if s != [] {
      var rest := Lines(s[1..]);
      JoinLines(s[1..]);
      if s[0] == '\n' {
        assert Lines(s) == [""] + rest;
        assert ([""] + rest)[1..] == rest;
      } else {
        var ls := [[s[0]] + rest[0]] + rest[1..];
        assert Lines(s) == ls;
        if |rest| > 1 {
          assert ls[1..] == rest[1..];
          assert Text.Join(rest, "\n") == rest[0] + "\n" + Text.Join(rest[1..], "\n");
        }
      }
    }
  }

  /** Text without a line feed in front of `x` extends the first line of `x`. */
  lemma {:induction false} LinesAfterText(t: string, x: string)
    requires NoNewline(t)
    ensures Lines(t + x) == [t + Lines(x)[0]] + Lines(x)[1..]
  {
    if t != [] {
      var tx := t + x;
      assert tx[0] == t[0] && t[0] != '\n';
      assert tx[1..] == t[1..] + x;
      assert NoNewline(t[1..]);
      LinesAfterText(t[1..], x);
      var rest := Lines(t[1..] + x);
      assert Lines(tx) == [[t[0]] + rest[0]] + rest[1..];
      assert rest[0] == t[1..] + Lines(x)[0];
      assert rest[1..] == Lines(x)[1..];
      assert [t[0]] + (t[1..] + Lines(x)[0]) == t + Lines(x)[0];
    } else {
      assert t + x == x;
      assert t + Lines(x)[0] == Lines(x)[0];
      assert [Lines(x)[0]] + Lines(x)[1..] == Lines(x);
    }
  }

  /** LinesOfReplaced when `m` starts with a line feed. */
  lemma LinesOfReplacedNewline(m: string, t: string)
    requires NoNewline(t) && m != [] && m[0] == '\n'
    requires Lines(ReplaceNewlines(m[1..], "\n" + t)) == [Lines(m[1..])[0]] + PrefixAll(t, Lines(m[1..])[1..])
    ensures Lines(ReplaceNewlines(m, "\n" + t)) == [Lines(m)[0]] + PrefixAll(t, Lines(m)[1..])
  {
    var lm' := Lines(m[1..]);
    var y := ReplaceNewlines(m[1..], "\n" + t);
    NewlineHead(m, t, y);
    LinesAfterText(t, y);
    PrefixAllCons(t, lm'[0], lm'[1..]);
    assert [lm'[0]] + lm'[1..] == lm';
  }

  /** A message starting with a line feed: both its lines and its replacement start a new line. */
  lemma NewlineHead(m: string, t: string, y: string)
    requires m != [] && m[0] == '\n' && y == ReplaceNewlines(m[1..], "\n" + t)
    ensures Lines(m) == [""] + Lines(m[1..])
    ensures Lines(ReplaceNewlines(m, "\n" + t)) == [""] + Lines(t + y)
  {
    var full := "\n" + (t + y);
    assert ReplaceNewlines(m, "\n" + t) == full;
    assert full[1..] == t + y;
  }

  lemma PrefixAllCons(t: string, a: string, rest: seq<string>)
    ensures PrefixAll(t, [a] + rest) == [t + a] + PrefixAll(t, rest)
  {
  }


  /** LinesOfReplaced when `m` starts with another character. */
  lemma LinesOfReplacedOther(m: string, t: string)
    requires NoNewline(t) && m != [] && m[0] != '\n'
    requires Lines(ReplaceNewlines(m[1..], "\n" + t)) == [Lines(m[1..])[0]] + PrefixAll(t, Lines(m[1..])[1..])
    ensures Lines(ReplaceNewlines(m, "\n" + t)) == [Lines(m)[0]] + PrefixAll(t, Lines(m)[1..])
  {
    var lm' := Lines(m[1..]);
    var y := ReplaceNewlines(m[1..], "\n" + t);
    var full := [m[0]] + y;
    assert ReplaceNewlines(m, "\n" + t) == full;
    assert full[0] == m[0] && full[1..] == y;
    assert Lines(full) == [[m[0]] + Lines(y)[0]] + Lines(y)[1..];
    assert Lines(m) == [[m[0]] + lm'[0]] + lm'[1..];
    assert Lines(m)[1..] == lm'[1..];
  }

  /** Replacing every line feed by line feed + `t` puts `t` in front of every line but the first. */
  lemma {:induction false} LinesOfReplaced(m: string, t: string)
    requires NoNewline(t)
    ensures Lines(ReplaceNewlines(m, "\n" + t)) == [Lines(m)[0]] + PrefixAll(t, Lines(m)[1..])
  {
    if m != [] {
      LinesOfReplaced(m[1..], t);
      if m[0] == '\n' {
        LinesOfReplacedNewline(m, t);
      } else {
        LinesOfReplacedOther(m, t);
      }
    }
  }

  /** Every line of a prefixed message is "[prefix] " followed by the matching
      line of the original message, so the number of lines is preserved. */
  lemma PrefixedLines(prefix: string, message: string)
    requires NoNewline(prefix)
    ensures Lines(PrefixMessage(prefix, message)) == PrefixAll(Tag(prefix), Lines(message))
    ensures |Lines(PrefixMessage(prefix, message))| == |Lines(message)|
    ensures forall i :: 0 <= i < |Lines(message)| ==>
      Lines(PrefixMessage(prefix, message))[i][..|Tag(prefix)|] == Tag(prefix)
  {
    var t := Tag(prefix);
    var y := ReplaceNewlines(message, "\n" + t);
    assert NoNewline(t);
    LinesOfReplaced(message, t);
    LinesAfterText(t, y);
    var lhs := Lines(t + y);
    var rhs := PrefixAll(t, Lines(message));
    assert |lhs| == |rhs|;
    forall i | 0 <= i < |lhs| ensures lhs[i] == rhs[i] {
      if i > 0 {
        assert lhs[i] == Lines(y)[i];
      }
    }
  }

  /** Removing "[prefix] " from every line of a prefixed message and joining the
      lines again recovers the original message. */
  lemma StripPrefixRecovers(prefix: string, message: string)
    requires NoNewline(prefix)
    ensures var ls := Lines(PrefixMessage(prefix, message));
      && (forall i :: 0 <= i < |ls| ==> |Tag(prefix)| <= |ls[i]|)
      && Text.Join(DropAll(|Tag(prefix)|, ls), "\n") == message
  {
    PrefixedLines(prefix, message);
    var ls := Lines(PrefixMessage(prefix, message));
    assert DropAll(|Tag(prefix)|, ls) == Lines(message);
    JoinLines(message);
  }
}
