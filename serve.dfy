/**
  The watch-mode "serve" builder (src/builders/serve/index.ts) without its
  stream plumbing. Two kinds of event drive it:
  - the progress of every scheduled target, reduced to which kinds of target
    are running, with consecutive equal running states suppressed;
  - the latest result of every target.
  A reducer turns each event into an optional output and an optional reload
  kind; a succeeded output starts (hot) or reloads (soft) Electron, and every
  output is emitted.
 */
module ServeCycle {
  import opened Js
  import opened OneShotBuild
  import opened ElectronRunning

  /** `BuilderProgressState`. */
  datatype ProgressState = Stopped | Error | Waiting | Running

  /** The latest progress report of one target. */
  datatype Progress = Progress(targetType: TargetType, state: ProgressState)

  /** `TargetRunningState`. */
  datatype RunningState = RunningState(main: bool, renderer: bool)

  /** Whether some target of type `t` reports Running. */
  function AnyRunning(ps: seq<Progress>, t: TargetType): (b: bool)
    ensures b <==> exists i :: 0 <= i < |ps| && ps[i].targetType == t && ps[i].state == Running
  {
    if ps == [] then false
    else (ps[0].targetType == t && ps[0].state == Running) || AnyRunning(ps[1..], t)
  }

  /** The running state derived from the progress of all targets. */
  function RunningStateOf(ps: seq<Progress>): RunningState {
    RunningState(AnyRunning(ps, Main), AnyRunning(ps, Renderer))
  }

  /** No two neighbours are equal. */
  predicate NoRepeats<T(==)>(s: seq<T>) {
    forall i :: 0 < i < |s| ==> s[i - 1] != s[i]
  }

  /** `distinctUntilChanged`: an element equal to the last one let through is dropped. */
  function Dedup<T(==)>(s: seq<T>): seq<T> {
    if s == [] then []
    else
      var d := Dedup(s[..|s| - 1]);
      if d != [] && d[|d| - 1] == s[|s| - 1] then d else d + [s[|s| - 1]]
  }

  /** What distinctUntilChanged lets through has no repeated neighbours, is
      empty only for an empty input, ends with the input's last element, and
      only holds elements of the input. */
  lemma {:induction false} DedupSpec<T>(s: seq<T>)
    ensures NoRepeats(Dedup(s))
    ensures |Dedup(s)| <= |s|
    ensures Dedup(s) == [] <==> s == []
    ensures s != [] ==> Dedup(s)[|Dedup(s)| - 1] == s[|s| - 1]
    ensures forall x :: x in Dedup(s) ==> x in s
  {
    if s != [] {
      var init := s[..|s| - 1];
      DedupSpec(init);
      assert forall x :: x in init ==> x in s;
    }
  }

  /** A sequence with no repeated neighbours passes through unchanged; in
      particular deduplicating twice is deduplicating once. */
  lemma {:induction false} DedupOfNoRepeats<T>(s: seq<T>)
    requires NoRepeats(s)
    ensures Dedup(s) == s
  {
    if s != [] {
      var init := s[..|s| - 1];
      assert NoRepeats(init);
      DedupOfNoRepeats(init);
      if |s| > 1 {
        assert s[|s| - 2] != s[|s| - 1];
      }
      assert init + [s[|s| - 1]] == s;
    }
  }

  lemma DedupIdempotent<T>(s: seq<T>)
    ensures Dedup(Dedup(s)) == Dedup(s)
  {
    DedupSpec(s);
    DedupOfNoRepeats(Dedup(s));
  }

  datatype Reload = Hot | Soft

  /** The line logged before a reload. */
  function ReloadMessageFor(r: Reload): string {
    "Perform electron " + (match r case Hot => "hot" case Soft => "soft") + " reload"
  }

  /** The two events of the reducer. `Results` carries the success of the
      latest output of every target and whether the main file exists when the
      event is handled. */
  datatype Event = StateChanged(state: RunningState) | Results(successes: seq<bool>, mainExists: bool)

  /** `TargetsResult`: the sticky flags, whether anything is running, and the
      output and reload decided by the last event. */
  datatype CycleState = CycleState(
    curAnyRunning: bool,
    mainWasRunning: bool,
    rendererWasRunning: bool,
    output: Option<bool>,
    reload: Option<Reload>)

  const InitialCycle := CycleState(false, false, false, None, None)

  /** Every entry is true. */
  predicate Every(bs: seq<bool>) {
    forall i :: 0 <= i < |bs| ==> bs[i]
  }

  /** The reducer. */
  function Transition(s: CycleState, ev: Event): CycleState {
    var c := s.(output := None, reload := None);
    match ev
    case StateChanged(rs) =>
      c.(mainWasRunning := c.mainWasRunning || rs.main,
         rendererWasRunning := c.rendererWasRunning || rs.renderer,
         curAnyRunning := rs.main || rs.renderer)
    case Results(successes, mainExists) =>
      if c.curAnyRunning then c
      else
        c.(output := Some(Every(successes) && mainExists),
           reload := Some(if c.mainWasRunning then Hot else Soft),
           mainWasRunning := false,
           rendererWasRunning := false)
  }

  /** A running-state event ORs its flags into the sticky ones, sets
      curAnyRunning to whether anything runs, and produces no output and no reload. */
  lemma StateChangedSpec(s: CycleState, rs: RunningState)
    ensures var t := Transition(s, StateChanged(rs));
      && t.mainWasRunning == (s.mainWasRunning || rs.main)
      && t.rendererWasRunning == (s.rendererWasRunning || rs.renderer)
      && t.curAnyRunning == (rs.main || rs.renderer)
      && t.output.None? && t.reload.None?
  {
  }

  /** A results event while something runs is dropped: no output, no reload,
      and every flag as it was. */
  lemma ResultsWhileRunningDropped(s: CycleState, successes: seq<bool>, mainExists: bool)
    requires s.curAnyRunning
    ensures Transition(s, Results(successes, mainExists)) == s.(output := None, reload := None)
  {
  }

  /** A results event while nothing runs closes the cycle: the output succeeds
      exactly when every result succeeded and the main file exists, the reload
      is hot exactly when the main target was rebuilt during the cycle, and both
      sticky flags are reset. */
  lemma ResultsWhenIdle(s: CycleState, successes: seq<bool>, mainExists: bool)
    requires !s.curAnyRunning
    ensures var t := Transition(s, Results(successes, mainExists));
      && t.output.Some? && t.reload.Some?
      && (t.output.value <==> (forall i :: 0 <= i < |successes| ==> successes[i]) && mainExists)
      && (t.reload.value == Hot <==> s.mainWasRunning)
      && !t.mainWasRunning && !t.rendererWasRunning && !t.curAnyRunning
  {
  }

  /** Output and reload are cleared at the start of every event: what an event
      decides does not depend on what the previous event decided. */
  lemma TransitionForgetsLastDecision(s: CycleState, ev: Event, output: Option<bool>, reload: Option<Reload>)
    ensures Transition(s.(output := output, reload := reload), ev) == Transition(s, ev)
    ensures Transition(s, ev).output.Some? <==> Transition(s, ev).reload.Some?
    ensures Transition(s, ev).output.Some? <==> ev.Results? && !s.curAnyRunning
  {
  }

  /** The reducer over a sequence of events. */
  function RunCycle(s: CycleState, evs: seq<Event>): CycleState {
    if evs == [] then s else Transition(RunCycle(s, evs[..|evs| - 1]), evs[|evs| - 1])
  }

  /** Whether the main (renderer) target ran according to some event of `evs`. */
  predicate MainRan(evs: seq<Event>) {
    exists i :: 0 <= i < |evs| && evs[i].StateChanged? && evs[i].state.main
  }

  predicate RendererRan(evs: seq<Event>) {
    exists i :: 0 <= i < |evs| && evs[i].StateChanged? && evs[i].state.renderer
  }

  /** Over running-state events alone the sticky flags record whether the main
      (renderer) target ran in any of them, and curAnyRunning follows the last one. */
  lemma {:induction false} StickyFlags(s: CycleState, evs: seq<Event>)
    requires forall i :: 0 <= i < |evs| ==> evs[i].StateChanged?
    ensures RunCycle(s, evs).mainWasRunning == (s.mainWasRunning || MainRan(evs))
    ensures RunCycle(s, evs).rendererWasRunning == (s.rendererWasRunning || RendererRan(evs))
    ensures evs != [] ==>
      (RunCycle(s, evs).curAnyRunning <==> evs[|evs| - 1].state.main || evs[|evs| - 1].state.renderer)
  {
    if evs != [] {
      var init := evs[..|evs| - 1];
      StickyFlags(s, init);
      assert forall i :: 0 <= i < |init| ==> init[i] == evs[i];
      if MainRan(evs) && !MainRan(init) {
        assert evs[|evs| - 1].state.main;
      }
      if RendererRan(evs) && !RendererRan(init) {
        assert evs[|evs| - 1].state.renderer;
      }
    }
  }

  /** One rebuild cycle: after an output closed the previous cycle, running-state
      events ending with nothing running, then the targets' results: exactly one
      output is produced, and the reload is hot exactly when the main target ran
      during the cycle. */
  lemma CycleReload(s: CycleState, evs: seq<Event>, successes: seq<bool>, mainExists: bool)
    requires !s.mainWasRunning && !s.rendererWasRunning
    requires evs != [] && forall i :: 0 <= i < |evs| ==> evs[i].StateChanged?
    requires evs[|evs| - 1].state == RunningState(false, false)
    ensures var t := RunCycle(s, evs + [Results(successes, mainExists)]);
      && t.output == Some(Every(successes) && mainExists)
      && (t.reload == Some(Hot) <==> MainRan(evs))
      && (t.reload == Some(Soft) <==> !MainRan(evs))
  {
    StickyFlags(s, evs);
    assert (evs + [Results(successes, mainExists)])[..|evs|] == evs;
  }

  /** Results that arrive while a target still runs leave no trace: the cycle
      closes only with the first results event after everything stopped. */
  lemma {:induction false} ResultsWhileRunningLeaveNoTrace(s: CycleState, successes: seq<seq<bool>>, mainExists: bool)
    requires s.curAnyRunning
    ensures var evs := seq(|successes|, i requires 0 <= i < |successes| => Results(successes[i], mainExists));
      RunCycle(s, evs) == if successes == [] then s else s.(output := None, reload := None)
  {
    var evs := seq(|successes|, i requires 0 <= i < |successes| => Results(successes[i], mainExists));
    if successes != [] {
      var init := successes[..|successes| - 1];
      ResultsWhileRunningLeaveNoTrace(s, init, mainExists);
      var evsInit := seq(|init|, i requires 0 <= i < |init| => Results(init[i], mainExists));
      assert evs[..|evs| - 1] == evsInit;
    }
  }

  /** A reducer accumulator updated in place by `scan`. */
  class TargetsResult {
    var curAnyRunning: bool
    var mainWasRunning: bool
    var rendererWasRunning: bool
    var output: Option<bool>
    var reload: Option<Reload>

    function State(): CycleState
      reads this
    {
      CycleState(curAnyRunning, mainWasRunning, rendererWasRunning, output, reload)
    }

    constructor ()
      ensures State() == InitialCycle
    {
      curAnyRunning, mainWasRunning, rendererWasRunning := false, false, false;
      output, reload := None, None;
    }

    method Accumulate(ev: Event)
      modifies this
      ensures State() == Transition(old(State()), ev)
    {
      output := None;
      reload := None;
      if ev.Results? {
        if !curAnyRunning {
          output := Some(Every(ev.successes));
          if output.value && !ev.mainExists {
            output := Some(false);
          }
          reload := Some(if mainWasRunning then Hot else Soft);
          mainWasRunning := false;
          rendererWasRunning := false;
        }
      } else {
        mainWasRunning := mainWasRunning || ev.state.main;
        rendererWasRunning := rendererWasRunning || ev.state.renderer;
        curAnyRunning := ev.state.main || ev.state.renderer;
      }
    }
  }

  /** The message of an error caught by the builder. */
  function ErrorMessage(e: Js.Error): string {
    match e
    case TypeError => "Cannot read properties of undefined"
    case Thrown(m) => m
  }

  /** What the serve builder holds and has done: the accumulator, the last
      running state let through, the runner, the outputs emitted, the log, the
      number of `reportRunning` calls, and whether the builder's stream has
      ended with an error. */
  datatype Session = Session(
    mainPath: string,
    cycle: CycleState,
    lastState: Option<RunningState>,
    runner: RunnerState,
    emitted: seq<bool>,
    log: seq<string>,
    reports: nat,
    terminated: bool)

  /** The error the reducer logs for a closed cycle whose targets all succeeded
      but whose main file is missing. */
  function ScanLog(s: CycleState, ev: Event, mainPath: string): seq<string> {
    if ev.Results? && !s.curAnyRunning && Every(ev.successes) && !ev.mainExists
    then [MissingMainMessage(mainPath)] else []
  }

  /** The reload step, then the output filter, after the reducer produced `c`.
      A hot reload opens Electron and logs a failure; a soft reload that fails
      ends the builder's stream, which then emits a failed output, and tearing
      the stream down kills the runner. */
  function AfterScan(s: Session, c: CycleState, lookup: Option<string>): Session {
    if !(c.output == Some(true)) then
      s.(cycle := c, emitted := s.emitted + (if c.output.Some? then [c.output.value] else []))
    else
      var kind := if c.reload.Some? then c.reload.value else Soft;  // always Some with an output
      var log := s.log + [ReloadMessageFor(kind)];
      if c.reload == Some(Hot) then
        var st := Opened(s.runner, lookup);
        s.(cycle := c, runner := st.next, emitted := s.emitted + [true],
           log := log + (if st.result.Err? then [ErrorMessage(st.result.error)] else []))
      else
        var st := Reloaded(s.runner, lookup);
        if st.result.Err? then
          s.(cycle := c, runner := Killed(st.next), emitted := s.emitted + [false],
             log := log + [ErrorMessage(st.result.error)], terminated := true)
        else
          s.(cycle := c, runner := st.next, emitted := s.emitted + [true], log := log)
  }

  /** A progress event: derive the running state, drop it when it equals the
      last one, report running, and run the reducer. A running-state event never
      closes a cycle, so it never looks electron up. */
  function OnProgress(s: Session, ps: seq<Progress>): Session {
    if s.terminated then s
    else
      var rs := RunningStateOf(ps);
      if s.lastState == Some(rs) then s
      else
        var s1 := s.(lastState := Some(rs), reports := s.reports + (if rs.main || rs.renderer then 1 else 0));
        var ev := StateChanged(rs);
        AfterScan(s1.(log := s1.log + ScanLog(s1.cycle, ev, s1.mainPath)), Transition(s1.cycle, ev), None)
  }

  /** A results event. */
  function OnResults(s: Session, successes: seq<bool>, mainExists: bool, lookup: Option<string>): Session {
    if s.terminated then s
    else
      var ev := Results(successes, mainExists);
      AfterScan(s.(log := s.log + ScanLog(s.cycle, ev, s.mainPath)), Transition(s.cycle, ev), lookup)
  }

  /** Unsubscribing the builder tears the runner down: the tracked process is killed. */
  function TornDown(s: Session): Session {
    s.(runner := Killed(s.runner), terminated := true)
  }

  predicate ValidSession(s: Session) {
    Valid(s.runner)
  }

  /** Progress events never emit an output and never touch Electron; a
      progress event whose running state equals the last one changes nothing;
      `reportRunning` is called once per new running state in which something runs. */
  lemma OnProgressSpec(s: Session, ps: seq<Progress>)
    ensures var t := OnProgress(s, ps);
      && t.emitted == s.emitted && t.runner == s.runner && t.terminated == s.terminated
      && (s.terminated || s.lastState == Some(RunningStateOf(ps)) ==> t == s)
      && (!s.terminated && s.lastState != Some(RunningStateOf(ps)) ==>
            && t.lastState == Some(RunningStateOf(ps))
            && t.cycle == Transition(s.cycle, StateChanged(RunningStateOf(ps)))
            && t.reports == s.reports + (if RunningStateOf(ps).main || RunningStateOf(ps).renderer then 1 else 0))
  {
  }

  /** A sequence of progress events, in order. */
  function ProgressAll(s: Session, pss: seq<seq<Progress>>): Session {
    if pss == [] then s else OnProgress(ProgressAll(s, pss[..|pss| - 1]), pss[|pss| - 1])
  }

  function StatesOf(pss: seq<seq<Progress>>): (rs: seq<RunningState>)
    ensures |rs| == |pss|
  {
    seq(|pss|, i requires 0 <= i < |pss| => RunningStateOf(pss[i]))
  }

  function StateEvents(rs: seq<RunningState>): (evs: seq<Event>)
    ensures |evs| == |rs|
  {
    seq(|rs|, i requires 0 <= i < |rs| => StateChanged(rs[i]))
  }

  /** The session's comparison with `lastState` is distinctUntilChanged: from a
      session that has seen no running state yet, a sequence of progress events
      runs the reducer on exactly the deduplicated running states, remembers the
      last of them, and emits nothing. */
  lemma {:induction false} ProgressFeedsDedup(s: Session, pss: seq<seq<Progress>>)
    requires !s.terminated && s.lastState.None?
    ensures var t := ProgressAll(s, pss);
      var d := Dedup(StatesOf(pss));
      && t.cycle == RunCycle(s.cycle, StateEvents(d))
      && t.lastState == (if d == [] then None else Some(d[|d| - 1]))
      && !t.terminated && t.emitted == s.emitted && t.runner == s.runner
  {
    if pss != [] {
      var init := pss[..|pss| - 1];
      var p := pss[|pss| - 1];
      ProgressFeedsDedup(s, init);
      var u := ProgressAll(s, init);
      var rs := RunningStateOf(p);
      var d := Dedup(StatesOf(init));
      assert StatesOf(pss)[..|pss| - 1] == StatesOf(init);
      assert StatesOf(pss)[|pss| - 1] == rs;
      OnProgressSpec(u, p);
      if !(d != [] && d[|d| - 1] == rs) {
        assert StateEvents(d + [rs])[..|d|] == StateEvents(d);
        assert StateEvents(d + [rs])[|d|] == StateChanged(rs);
      }
    }
  }

  /** Electron is touched only when a results event closes a cycle with a
      succeeded output: then a cycle in which the main target ran opens Electron
      anew (hot), any other reloads it (soft), and a failed soft reload kills
      the runner and ends the builder. Each results event emits at most one
      output, and one exactly when it closes a cycle. */
  lemma OnResultsSpec(s: Session, successes: seq<bool>, mainExists: bool, lookup: Option<string>)
    requires ValidSession(s) && !s.terminated
    ensures var t := OnResults(s, successes, mainExists, lookup);
      && ValidSession(t)
      && (s.cycle.curAnyRunning ==> t.emitted == s.emitted && t.runner == s.runner && t.log == s.log)
      && (!s.cycle.curAnyRunning ==> |t.emitted| == |s.emitted| + 1)
      && (!(Every(successes) && mainExists) ==> t.runner == s.runner)
      && (!t.terminated ==> t.emitted == s.emitted + (if s.cycle.curAnyRunning then [] else [Every(successes) && mainExists]))
      && (!s.cycle.curAnyRunning && Every(successes) && mainExists && s.cycle.mainWasRunning ==>
            t.runner == Opened(s.runner, lookup).next && !t.terminated)
      && (!s.cycle.curAnyRunning && Every(successes) && mainExists && !s.cycle.mainWasRunning ==>
            var st := Reloaded(s.runner, lookup);
            && (st.result.Ok? ==> t.runner == st.next && !t.terminated)
            && (st.result.Err? ==> t.runner == Killed(st.next) && t.terminated && t.emitted == s.emitted + [false]))
  {
    var c := Transition(s.cycle, Results(successes, mainExists));
    if !s.cycle.curAnyRunning {
      ResultsWhenIdle(s.cycle, successes, mainExists);
    }
    if c.output == Some(true) {
      if c.reload == Some(Hot) {
        OpenSpec(s.runner, lookup);
      } else {
        ReloadSpec(s.runner, lookup);
        var st := Reloaded(s.runner, lookup);
        if st.result.Err? {
          KillSpec(st.next);
        }
      }
    }
  }

  /** A hot reload opens Electron; when that fails the error is logged, the
      succeeded output is still emitted and the builder goes on. */
  lemma HotReloadFailureIsLogged(s: Session, successes: seq<bool>, lookup: Option<string>)
    requires ValidSession(s) && !s.terminated && !s.cycle.curAnyRunning && s.cycle.mainWasRunning
    requires Every(successes)
    requires !HasElectronPath(s.runner) && lookup.None?
    ensures var t := OnResults(s, successes, true, lookup);
      && !t.terminated
      && t.emitted == s.emitted + [true]
      && t.log == s.log + ["Perform electron hot reload", NotFoundMessage]
      && t.runner.proc.None?
  {
    OpenSpec(s.runner, lookup);
    assert ReloadMessageFor(Hot) == "Perform electron hot reload";
  }

  /** A soft reload with nothing tracked opens Electron; when that fails the
      builder's stream ends with a failed output and ignores every later event. */
  lemma SoftReloadFailureEndsServe(s: Session, successes: seq<bool>, lookup: Option<string>,
                                   ps: seq<Progress>, later: seq<bool>)
    requires ValidSession(s) && !s.terminated && !s.cycle.curAnyRunning && !s.cycle.mainWasRunning
    requires Every(successes) && s.runner.proc.None?
    requires !HasElectronPath(s.runner) && lookup.None?
    ensures var t := OnResults(s, successes, true, lookup);
      && t.terminated
      && t.emitted == s.emitted + [false]
      && t.log == s.log + ["Perform electron soft reload", NotFoundMessage]
      && OnProgress(t, ps) == t
      && OnResults(t, later, true, lookup) == t
  {
    OpenSpec(s.runner, lookup);
    assert ReloadMessageFor(Soft) == "Perform electron soft reload";
  }

  /** Stopping the builder leaves no Electron process live. */
  lemma TornDownKillsElectron(s: Session)
    requires ValidSession(s)
    ensures ValidSession(TornDown(s)) && Live(TornDown(s).runner) == {} && TornDown(s).terminated
  {
    KillSpec(s.runner);
  }

  /** The serve builder once its targets are scheduled: the reducer's
      accumulator, the Electron runner, and what it has emitted and logged. */
  class ServeSession {
    const mainPath: string
    const acc: TargetsResult
    const runner: ElectronRunner
    var lastState: Option<RunningState>
    var emitted: seq<bool>
    var log: seq<string>
    var reports: nat
    var terminated: bool

    function State(): Session
      reads this, acc, runner
    {
      Session(mainPath, acc.State(), lastState, runner.State(), emitted, log, reports, terminated)
    }

    predicate Valid()
      reads this, acc, runner
    {
      ValidSession(State())
    }

    constructor (mainPath: string, appPath: string)
      ensures Valid() && fresh(acc) && fresh(runner)
      ensures State() == Session(mainPath, InitialCycle, None, Initial(appPath), [], [], 0, false)
    {
      this.mainPath := mainPath;
      acc := new TargetsResult();
      runner := new ElectronRunner(appPath);
      lastState := None;
      emitted := [];
      log := [];
      reports := 0;
      terminated := false;
    }

    /** Runs the reducer on `ev`, then the reload step and the output filter. */
    method Scan(ev: Event, lookup: Option<string>)
      requires Valid() && !terminated
      modifies this, acc, runner
      ensures Valid()
      ensures State() == AfterScan(old(State()).(log := old(log) + ScanLog(old(acc.State()), ev, mainPath)),
                                   Transition(old(acc.State()), ev), lookup)
    {
      log := log + ScanLog(acc.State(), ev, mainPath);
      acc.Accumulate(ev);
      if acc.output != Some(true) {
        if acc.output.Some? {
          emitted := emitted + [acc.output.value];
        }
        return;
      }
      var kind := if acc.reload.Some? then acc.reload.value else Soft;
      log := log + [ReloadMessageFor(kind)];
      if acc.reload == Some(Hot) {
        var r := runner.Open(lookup);
        if r.Err? {
          log := log + [ErrorMessage(r.error)];
        }
      } else {
        var r := runner.Reload(lookup);
        if r.Err? {
          log := log + [ErrorMessage(r.error)];
          emitted := emitted + [false];
          terminated := true;
          runner.Kill();
          return;
        }
      }
      emitted := emitted + [true];
    }

    method HandleProgress(ps: seq<Progress>)
      requires Valid()
      modifies this, acc, runner
      ensures Valid() && State() == OnProgress(old(State()), ps)
    {
      if terminated {
        return;
      }
      var rs := RunningStateOf(ps);
      if lastState == Some(rs) {
        return;
      }
      lastState := Some(rs);
      if rs.main || rs.renderer {
        reports := reports + 1;
      }
      Scan(StateChanged(rs), None);
    }

    method HandleResults(successes: seq<bool>, mainExists: bool, lookup: Option<string>)
      requires Valid()
      modifies this, acc, runner
      ensures Valid() && State() == OnResults(old(State()), successes, mainExists, lookup)
    {
      if terminated {
        return;
      }
      Scan(Results(successes, mainExists), lookup);
    }

    method Stop()
      requires Valid()
      modifies this, runner
      ensures Valid() && State() == TornDown(old(State()))
    {
      runner.Kill();
      terminated := true;
    }
  }
}
