/**
  The Electron process supervisor (src/builders/utils/electron-runner.ts).
  A runner tracks at most one process. `open` kills the tracked process, looks
  up the electron executable once and spawns a new process; `kill` kills the
  tracked process and forgets it at once; `reload` sends the reload message
  over IPC, or opens when nothing is tracked. Each process's stdout and stderr
  are line buffered, and its exit handler flushes the buffers and forgets the
  process only if it is still the tracked one.

  Processes are generation ids handed out in spawn order; spawning, killing
  and IPC sends are recorded in logs instead of being performed, and stream
  chunks arrive already decoded.
 */
module ElectronRunning {
  import opened Js
  import opened LineBuffer

  const ReloadMessage := "@da-mkay/ng-builder-electron:reload"
  const NotFoundMessage := "Could not find electron. Is it installed?"

  /** `spawn(command, args)` for the process with generation `gen`. */
  datatype Spawn = Spawn(gen: nat, command: string, args: seq<string>)

  /** An IPC message sent to the process with generation `gen`. */
  datatype Sent = Sent(gen: nat, message: string)

  /** `fullOut` and `fullErr` of one process. */
  datatype Buffers = Buffers(out: string, err: string)

  datatype Channel = Stdout | Stderr

  /** Everything the runner holds and everything it has done so far.
      `buffers` holds `fullOut`/`fullErr` of every spawned process; they stay
      after its exit, since its data handlers stay attached. `exited` are the
      processes whose exit handler has run. */
  datatype RunnerState = RunnerState(
    appPath: string,
    electronPath: Option<string>,
    proc: Option<nat>,
    nextGen: nat,
    buffers: map<nat, Buffers>,
    spawned: seq<Spawn>,
    killed: seq<nat>,
    exited: set<nat>,
    sent: seq<Sent>,
    logged: seq<string>)

  /** The result of `open` or `reload`: the new state and whether it threw. */
  datatype Step = Step(next: RunnerState, result: Result<()>)

  /** The processes that were spawned, have not exited and were not killed. */
  function Live(s: RunnerState): set<nat> {
    set g | g in s.buffers && g !in s.killed && g !in s.exited
  }

  /** The tracked process is running and not killed, the buffers hold no line
      feed between chunks, and every live process is the tracked one. */
  predicate Valid(s: RunnerState) {
    && (s.proc.Some? ==> s.proc.value in s.buffers && s.proc.value !in s.killed && s.proc.value !in s.exited
                         && s.electronPath.Some?)
    && (forall g :: g in s.buffers ==> g < s.nextGen && NoNewline(s.buffers[g].out) && NoNewline(s.buffers[g].err))
    && (forall g :: g in s.killed ==> g < s.nextGen)
    && (forall g :: g in s.exited ==> g in s.buffers)
    && (forall g :: g in s.buffers && g !in s.killed && g !in s.exited ==> s.proc == Some(g))
  }

  function Initial(appPath: string): RunnerState {
    RunnerState(appPath, None, None, 0, map[], [], [], {}, [], [])
  }

  /** `kill()`. */
  function Killed(s: RunnerState): RunnerState {
    if s.proc.None? then s
    else s.(killed := s.killed + [s.proc.value], proc := None)
  }

  /** Whether `this.electronPath` is set (a truthy string). */
  predicate HasElectronPath(s: RunnerState) {
    s.electronPath.Some? && s.electronPath.value != ""
  }

  /** `open()`; `lookup` is what `require('electron')` yields, None when it throws. */
  function Opened(s: RunnerState, lookup: Option<string>): Step {
    var k := Killed(s);
    var path := if HasElectronPath(k) then k.electronPath else lookup;
    if path.None? then Step(k, Err(Thrown(NotFoundMessage)))
    else
      var g := k.nextGen;
      Step(k.(electronPath := path, proc := Some(g), nextGen := g + 1,
              buffers := k.buffers[g := Buffers("", "")],
              spawned := k.spawned + [Spawn(g, path.value, [k.appPath])]),
           Ok(()))
  }

  /** `reload()`. */
  function Reloaded(s: RunnerState, lookup: Option<string>): Step {
    if s.proc.None? then Opened(s, lookup)
    else Step(s.(sent := s.sent + [Sent(s.proc.value, ReloadMessage)]), Ok(()))
  }

  /** The messages a chunk makes the runner log. */
  function LoggedBy(fed: Fed): seq<string> {
    if fed.logged.Some? then [fed.logged.value] else []
  }

  /** The `data` handler of stream `ch` of process `g`. Only a spawned process
      has handlers; they stay attached after its exit handler has run. */
  function OnData(s: RunnerState, g: nat, ch: Channel, chunk: string): RunnerState {
    if g !in s.buffers then s
    else
      var b := s.buffers[g];
      var fed := Feed(if ch.Stdout? then b.out else b.err, chunk);
      var b' := if ch.Stdout? then b.(out := fed.buffer) else b.(err := fed.buffer);
      s.(buffers := s.buffers[g := b'], logged := s.logged + LoggedBy(fed))
  }

  /** `[s]` when `s` is truthy (non-empty), else nothing. */
  function IfNonEmpty(s: string): seq<string> {
    if s != "" then [s] else []
  }

  /** The `exit` handler of process `g`, which runs once per spawned process.
      It logs the remaining text but does not clear `fullOut`/`fullErr`. */
  function Exited(s: RunnerState, g: nat): RunnerState {
    if g !in s.buffers || g in s.exited then s
    else
      var b := s.buffers[g];
      s.(logged := s.logged + IfNonEmpty(b.out) + IfNonEmpty(b.err),
         proc := if s.proc == Some(g) then None else s.proc,
         exited := s.exited + {g})
  }

  /** Under Valid, the live processes are exactly the tracked one, if any. */
  lemma LiveIsTracked(s: RunnerState)
    requires Valid(s)
    ensures Live(s) == if s.proc.Some? then {s.proc.value} else {}
  {
    if s.proc.Some? {
      assert s.proc.value in Live(s);
    }
  }

  /** `kill()` leaves nothing tracked and nothing live; with nothing tracked it
      changes nothing; otherwise it records exactly the tracked process as
      killed; killing twice is killing once. */
  lemma KillSpec(s: RunnerState)
    requires Valid(s)
    ensures Valid(Killed(s))
    ensures Killed(s).proc.None? && Live(Killed(s)) == {}
    ensures s.proc.None? ==> Killed(s) == s
    ensures s.proc.Some? ==> Killed(s).killed == s.killed + [s.proc.value]
    ensures Killed(Killed(s)) == Killed(s)
  {
    LiveIsTracked(Killed(s));
  }

  /** `open()`: the previously tracked process is killed first in every case;
      when the path is neither cached nor found, `open` throws the "Could not
      find electron" error without spawning and leaves nothing tracked;
      otherwise exactly one process is live, the freshly spawned one, running
      the (cached or found) electron executable on the app path. */
  lemma OpenSpec(s: RunnerState, lookup: Option<string>)
    requires Valid(s)
    ensures var st := Opened(s, lookup);
      && Valid(st.next)
      && st.next.killed == Killed(s).killed
      && (st.result.Err? <==> !HasElectronPath(s) && lookup.None?)
      && (st.result.Err? ==>
            st.result.error == Thrown(NotFoundMessage) && st.next.spawned == s.spawned
            && st.next.proc.None? && Live(st.next) == {})
      && (st.result.Ok? ==>
            var path := if HasElectronPath(s) then s.electronPath.value else lookup.value;
            && st.next.proc == Some(s.nextGen)
            && Live(st.next) == {s.nextGen}
            && st.next.spawned == s.spawned + [Spawn(s.nextGen, path, [s.appPath])]
            && st.next.buffers[s.nextGen] == Buffers("", ""))
  {
    KillSpec(s);
    var st := Opened(s, lookup);
    LiveIsTracked(st.next);
  }

  /** `reload()` with nothing tracked is exactly `open()`; otherwise it sends
      the reload message to the tracked process and changes nothing else. */
  lemma ReloadSpec(s: RunnerState, lookup: Option<string>)
    requires Valid(s)
    ensures Valid(Reloaded(s, lookup).next)
    ensures s.proc.None? ==> Reloaded(s, lookup) == Opened(s, lookup)
    ensures s.proc.Some? ==>
      && Reloaded(s, lookup).result.Ok?
      && Reloaded(s, lookup).next.proc == s.proc
      && Reloaded(s, lookup).next.sent == s.sent + [Sent(s.proc.value, ReloadMessage)]
      && Reloaded(s, lookup).next.(sent := s.sent) == s
  {
    if s.proc.None? {
      OpenSpec(s, lookup);
    }
  }

  /** A chunk leaves its stream's buffer without a line feed and logs at most
      one message; the logged text, a line feed and the new buffer are the old
      buffer plus the chunk. Nothing but that stream's buffer and the log changes. */
  lemma OnDataSpec(s: RunnerState, g: nat, ch: Channel, chunk: string)
    requires Valid(s) && g in s.buffers
    ensures var t := OnData(s, g, ch, chunk);
      var before := if ch.Stdout? then s.buffers[g].out else s.buffers[g].err;
      var after := if ch.Stdout? then t.buffers[g].out else t.buffers[g].err;
      && Valid(t)
      && t.proc == s.proc && t.killed == s.killed && t.exited == s.exited
      && t.spawned == s.spawned && t.sent == s.sent
      && NoNewline(after)
      && (|t.logged| == |s.logged| ==> t.logged == s.logged && after == before + chunk)
      && (|t.logged| != |s.logged| ==>
            |t.logged| == |s.logged| + 1 && t.logged[..|s.logged|] == s.logged
            && t.logged[|s.logged|] + "\n" + after == before + chunk)
  {
    var b := s.buffers[g];
    FeedSpec(if ch.Stdout? then b.out else b.err, chunk);
    var t := OnData(s, g, ch, chunk);
    assert t.logged[..|s.logged|] == s.logged;
  }

  /** The exit handler forgets process `g` only when it is still the tracked
      one (a process replaced by `open` does not clear its successor), logs the
      remaining stdout text and then the remaining stderr text, each only when
      non-empty, and keeps both buffers as they are. */
  lemma ExitSpec(s: RunnerState, g: nat)
    requires Valid(s) && g in s.buffers && g !in s.exited
    ensures var t := Exited(s, g);
      && Valid(t)
      && t.proc == (if s.proc == Some(g) then None else s.proc)
      && t.logged == s.logged + IfNonEmpty(s.buffers[g].out) + IfNonEmpty(s.buffers[g].err)
      && t.buffers == s.buffers && g in t.exited && g !in Live(t)
      && t.killed == s.killed && t.spawned == s.spawned
  {
  }

  /** Stream `ch` of process `g` receiving `chunks` in order. */
  function OnDataAll(s: RunnerState, g: nat, ch: Channel, chunks: seq<string>): RunnerState {
    if chunks == [] then s
    else OnData(OnDataAll(s, g, ch, chunks[..|chunks| - 1]), g, ch, chunks[|chunks| - 1])
  }

  /** The buffer of stream `ch` of a process. */
  function BufferOf(b: Buffers, ch: Channel): string {
    if ch.Stdout? then b.out else b.err
  }

  /** Feeding chunks to one stream of a running process logs exactly the
      messages of the line buffer and leaves its buffer where the line buffer
      leaves it; the other stream's buffer is untouched. */
  lemma {:induction false} OnDataAllIsFeedAll(s: RunnerState, g: nat, ch: Channel, chunks: seq<string>)
    requires g in s.buffers
    ensures var t := OnDataAll(s, g, ch, chunks);
      var f := FeedAll(BufferOf(s.buffers[g], ch), chunks);
      && g in t.buffers && t.exited == s.exited
      && t.logged == s.logged + f.messages
      && BufferOf(t.buffers[g], ch) == f.buffer
      && BufferOf(t.buffers[g], if ch.Stdout? then Stderr else Stdout) ==
         BufferOf(s.buffers[g], if ch.Stdout? then Stderr else Stdout)
  {
    if chunks != [] {
      var init := chunks[..|chunks| - 1];
      OnDataAllIsFeedAll(s, g, ch, init);
      var u := OnDataAll(s, g, ch, init);
      OnDataStep(u, g, ch, chunks[|chunks| - 1]);
    }
  }

  /** One chunk on one stream, stated through `BufferOf`. */
  lemma OnDataStep(u: RunnerState, g: nat, ch: Channel, chunk: string)
    requires g in u.buffers
    ensures var t := OnData(u, g, ch, chunk);
      var fed := Feed(BufferOf(u.buffers[g], ch), chunk);
      && g in t.buffers && t.exited == u.exited
      && t.logged == u.logged + LoggedBy(fed)
      && BufferOf(t.buffers[g], ch) == fed.buffer
      && BufferOf(t.buffers[g], if ch.Stdout? then Stderr else Stdout) ==
         BufferOf(u.buffers[g], if ch.Stdout? then Stderr else Stdout)
  {
  }

  /** No stdout text is lost or duplicated when all output precedes the exit:
      if a freshly spawned process writes `chunks` to stdout and nothing to
      stderr, and then exits, the messages logged for it, where all but a
      possible last one are followed by a line feed, spell out exactly the
      concatenated chunks. */
  lemma StdoutNothingLost(s: RunnerState, g: nat, chunks: seq<string>)
    requires g in s.buffers && g !in s.exited && s.buffers[g] == Buffers("", "")
    ensures var t := Exited(OnDataAll(s, g, Stdout, chunks), g);
      var f := FeedAll("", chunks);
      && t.logged == s.logged + f.messages + IfNonEmpty(f.buffer)
      && Terminated(f.messages) + f.buffer == Concat(chunks)
  {
    OnDataAllIsFeedAll(s, g, Stdout, chunks);
    FeedAllPreservesText("", chunks);
  }

  /** Stdout data that arrives after the exit handler has run is still line
      buffered, starting from the tail the exit handler already logged: that
      tail is logged again as the start of the next message, and what remains
      at the end is never logged. */
  lemma DataAfterExit(s: RunnerState, g: nat, chunks: seq<string>, later: seq<string>)
    requires g in s.buffers && g !in s.exited && s.buffers[g] == Buffers("", "")
    ensures var t := OnDataAll(Exited(OnDataAll(s, g, Stdout, chunks), g), g, Stdout, later);
      var f := FeedAll("", chunks);
      var f2 := FeedAll(f.buffer, later);
      && t.logged == s.logged + f.messages + IfNonEmpty(f.buffer) + f2.messages
      && Terminated(f2.messages) + f2.buffer == f.buffer + Concat(later)
  {
    var f := FeedAll("", chunks);
    var u := OnDataAll(s, g, Stdout, chunks);
    OnDataAllIsFeedAll(s, g, Stdout, chunks);
    assert u.logged == s.logged + f.messages;
    assert u.buffers[g] == Buffers(f.buffer, "");
    var e := Exited(u, g);
    ExitKeepsBuffers(u, g);
    assert e.logged == s.logged + f.messages + IfNonEmpty(f.buffer);
    OnDataAllIsFeedAll(e, g, Stdout, later);
    FeedAllPreservesText(f.buffer, later);
  }

  lemma ExitKeepsBuffers(u: RunnerState, g: nat)
    requires g in u.buffers && g !in u.exited
    ensures Exited(u, g).buffers == u.buffers
    ensures Exited(u, g).logged == u.logged + IfNonEmpty(u.buffers[g].out) + IfNonEmpty(u.buffers[g].err)
  {
  }

  /** For instance, "abc" written before the exit and "d\n" after it make the
      runner log "abc" at the exit and then "abcd". */
  lemma TailLoggedTwice(s: RunnerState, g: nat)
    requires g in s.buffers && g !in s.exited && s.buffers[g] == Buffers("", "")
    ensures OnData(Exited(OnData(s, g, Stdout, "abc"), g), g, Stdout, "d\n").logged == s.logged + ["abc", "abcd"]
  {
    assert "" + "abc" == "abc";
    var i := LastIndexOf("abc", '\n');
    assert "abc"[0] != '\n' && "abc"[1] != '\n' && "abc"[2] != '\n';
    assert i == -1;
    assert Feed("", "abc") == Fed(None, "abc");
    var s1 := OnData(s, g, Stdout, "abc");
    assert s1.buffers[g] == Buffers("abc", "") && s1.logged == s.logged && s1.exited == s.exited;
    var s2 := Exited(s1, g);
    ExitKeepsBuffers(s1, g);
    assert s2.logged == s.logged + ["abc"];
    assert "abc" + "d\n" == "abcd\n";
    assert LastIndexOf("abcd\n", '\n') == 4;
    assert "abcd\n"[..4] == "abcd" && "abcd\n"[5..] == "";
    assert Feed("abc", "d\n") == Fed(Some("abcd"), "");
  }

  /** An ElectronRunner whose fields are updated in place by its methods and by
      the stream and exit handlers of the processes it spawned. */
  class ElectronRunner {
    const appPath: string
    var electronPath: Option<string>
    var proc: Option<nat>
    var nextGen: nat
    var buffers: map<nat, Buffers>
    var spawned: seq<Spawn>
    var killed: seq<nat>
    var exited: set<nat>
    var sent: seq<Sent>
    var logged: seq<string>

    function State(): RunnerState
      reads this
    {
      RunnerState(appPath, electronPath, proc, nextGen, buffers, spawned, killed, exited, sent, logged)
    }

    constructor (appPath: string)
      ensures State() == Initial(appPath) && Valid(State())
    {
      this.appPath := appPath;
      electronPath := None;
      proc := None;
      nextGen := 0;
      buffers := map[];
      spawned := [];
      killed := [];
      exited := {};
      sent := [];
      logged := [];
    }

    method Kill()
      requires Valid(State())
      modifies this
      ensures State() == Killed(old(State())) && Valid(State())
    {
      KillSpec(State());
      if proc.None? {
        return;
      }
      killed := killed + [proc.value];
      proc := None;
    }

    method Open(lookup: Option<string>) returns (r: Result<()>)
      requires Valid(State())
      modifies this
      ensures Step(State(), r) == Opened(old(State()), lookup) && Valid(State())
    {
      OpenSpec(State(), lookup);
      if proc.Some? {
        Kill();
      }
      if !(electronPath.Some? && electronPath.value != "") {
        if lookup.None? {
          return Err(Thrown(NotFoundMessage));
        }
        electronPath := lookup;
      }
      var g := nextGen;
      spawned := spawned + [Spawn(g, electronPath.value, [appPath])];
      proc := Some(g);
      nextGen := g + 1;
      buffers := buffers[g := Buffers("", "")];
      return Ok(());
    }

    method Reload(lookup: Option<string>) returns (r: Result<()>)
      requires Valid(State())
      modifies this
      ensures Step(State(), r) == Reloaded(old(State()), lookup) && Valid(State())
    {
      ReloadSpec(State(), lookup);
      if proc.None? {
        r := Open(lookup);
        return;
      }
      sent := sent + [Sent(proc.value, ReloadMessage)];
      return Ok(());
    }

    /** The `data` handler of stream `ch` of process `g`. */
    method OnChunk(g: nat, ch: Channel, chunk: string)
      requires Valid(State())
      modifies this
      ensures State() == OnData(old(State()), g, ch, chunk) && Valid(State())
    {
      if g !in buffers {
        return;
      }
      OnDataSpec(State(), g, ch, chunk);
      var b := buffers[g];
      var full := (if ch.Stdout? then b.out else b.err) + chunk;
      var i := LastIndexOf(full, '\n');
      if i >= 0 {
        logged := logged + [full[..i]];
        full := full[i + 1..];
      }
      buffers := buffers[g := if ch.Stdout? then b.(out := full) else b.(err := full)];
    }

    /** The `exit` handler of process `g`. */
    method OnExit(g: nat)
      requires Valid(State())
      modifies this
      ensures State() == Exited(old(State()), g) && Valid(State())
    {
      if g !in buffers || g in exited {
        return;
      }
      ExitSpec(State(), g);
      var b := buffers[g];
      if b.out != "" {
        logged := logged + [b.out];
      }
      if b.err != "" {
        logged := logged + [b.err];
      }
      if proc == Some(g) {
        proc := None;
      }
      exited := exited + {g};
    }
  }
}
