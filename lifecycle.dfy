/**
  * The supervisor wired together by Starter.exec(), as values.
  *
  * A State holds the two marker files of the data directory (RUNNING and
  * STOPPED), the restart-pending flag, and the calls made so far on the
  * engine runner. Each engine callback and each control command is one
  * atomic step from State to State; Run folds the steps over a trace of
  * events. The outcomes of the proxy scripts and of creating a marker file
  * are carried by the events, since that code is not part of this model.
  */
module Lifecycle {

  datatype Option<T> = None | Some(value: T)

  /** A call the supervisor makes on the engine runner. */
  datatype Req = Start | Stop

  /**
    * How the stop script ended. Only an IOException is caught by onStopped;
    * any other exception leaves the callback early.
    */
  datatype StopScript = StopCompleted | StopIOException | StopUncheckedException

  datatype State = State(running: bool, stopped: bool, restart: bool, requests: seq<Req>)

  /**
    * One atomic step seen by the supervisor. `created` says whether creating
    * the marker file succeeded (its IOException is swallowed).
    */
  datatype Event =
    | Prepare(prepareOk: bool)
    | Started(startOk: bool, created: bool)
    | Stopped(script: StopScript, created: bool)
    | Control(cmd: string)

  /** The two markers are never present together. */
  predicate Exclusive(s: State) {
    !(s.running && s.stopped)
  }

  function Pending(s: State): nat {
    if s.restart then 1 else 0
  }

  /** The state right after exec() has reset the markers and started the runner. */
  function Initial(created: bool): State {
    State(false, created, false, [Start])
  }

  /** onStarted: clear both markers, run the start script, then RUNNING or a stop. */
  function AfterStarted(s: State, startOk: bool, created: bool): (t: State)
    ensures Exclusive(t) && !t.stopped
    ensures t.running <==> startOk && created
    ensures t.restart == s.restart
    ensures startOk ==> t.requests == s.requests
    ensures !startOk ==> t.requests == s.requests + [Stop]
  {
    var cleared := s.(running := false, stopped := false);
    if !startOk then cleared.(requests := s.requests + [Stop])
    else cleared.(running := created)
  }

  /**
    * onStopped: clear both markers, run the stop script, create STOPPED, then
    * consume the restart flag and start again if it was set.
    */
  function AfterStopped(s: State, script: StopScript, created: bool): (t: State)
    ensures Exclusive(t) && !t.running
    ensures script != StopUncheckedException ==>
      t.stopped == created && !t.restart &&
      t.requests == s.requests + (if s.restart then [Start] else [])
    ensures script == StopUncheckedException ==>
      !t.stopped && t.restart == s.restart && t.requests == s.requests
  {
    var cleared := s.(running := false, stopped := false);
    if script == StopUncheckedException then cleared
    else
      var marked := cleared.(stopped := created);
      var issued := if s.restart then [Start] else [];
      marked.(restart := false, requests := s.requests + issued)
  }

  /** The control observer's switch over the command string. */
  function AfterCommand(s: State, cmd: string): (t: State)
    ensures t.running == s.running && t.stopped == s.stopped
    ensures cmd == "START" ==> t.restart == s.restart && t.requests == s.requests + [Start]
    ensures cmd == "STOP" ==> t.restart == s.restart && t.requests == s.requests + [Stop]
    ensures cmd == "RESTART" ==> t.restart && t.requests == s.requests + [Stop]
    ensures cmd !in {"START", "STOP", "RESTART"} ==> t == s
  {
    if cmd == "START" then s.(requests := s.requests + [Start])
    else if cmd == "STOP" then s.(requests := s.requests + [Stop])
    else if cmd == "RESTART" then s.(restart := true, requests := s.requests + [Stop])
    else s
  }

  /** The runner calls that event `e` makes when it arrives in state `s`. */
  function Issued(s: State, e: Event): seq<Req> {
    match e
    case Prepare(_) => []
    case Started(ok, _) => if ok then [] else [Stop]
    case Stopped(script, _) => if script != StopUncheckedException && s.restart then [Start] else []
    case Control(cmd) =>
      if cmd == "START" then [Start]
      else if cmd == "STOP" || cmd == "RESTART" then [Stop]
      else []
  }

  /** One event; onPrepare only answers and changes nothing. */
  function Step(s: State, e: Event): (t: State)
    ensures t.requests == s.requests + Issued(s, e)
  {
    match e
    case Prepare(_) => s
    case Started(ok, created) => AfterStarted(s, ok, created)
    case Stopped(script, created) => AfterStopped(s, script, created)
    case Control(cmd) => AfterCommand(s, cmd)
  }

  /** The state after the events of `evs`, oldest first, starting from `s`. */
  function Run(s: State, evs: seq<Event>): (t: State)
    ensures Exclusive(s) ==> Exclusive(t)
    ensures s.requests <= t.requests
    decreases |evs|
  {
    if evs == [] then s
    else Step(Run(s, evs[..|evs| - 1]), evs[|evs| - 1])
  }

  /** Unfolds Run once at the end of a trace. */
  lemma RunSnoc(s: State, evs: seq<Event>, e: Event)
    ensures Run(s, evs + [e]) == Step(Run(s, evs), e)
  {
  }

  /** Number of occurrences of `r` among the runner calls `rs`. */
  function Count(rs: seq<Req>, r: Req): nat {
    if rs == [] then 0
    else Count(rs[..|rs| - 1], r) + (if rs[|rs| - 1] == r then 1 else 0)
  }

  /** Number of control commands equal to `cmd` in `evs`. */
  function Commands(evs: seq<Event>, cmd: string): nat {
    if evs == [] then 0
    else Commands(evs[..|evs| - 1], cmd) + (if evs[|evs| - 1] == Control(cmd) then 1 else 0)
  }

  /** Number of onStarted callbacks in `evs` whose start script failed. */
  function FailedStarts(evs: seq<Event>): nat {
    if evs == [] then 0
    else FailedStarts(evs[..|evs| - 1]) + (if evs[|evs| - 1].Started? && !evs[|evs| - 1].startOk then 1 else 0)
  }

  /** Events that delete both markers: the onStarted and onStopped callbacks. */
  predicate WritesMarkers(e: Event) {
    e.Started? || e.Stopped?
  }

  /** Events that write the restart flag: RESTART sets it, a completed onStopped clears it. */
  predicate WritesFlag(e: Event) {
    e == Control("RESTART") || (e.Stopped? && e.script != StopUncheckedException)
  }

  /** The last event of `evs` that deletes the markers, if any. */
  function LastMarkerWrite(evs: seq<Event>): (r: Option<Event>)
    ensures r.Some? ==> r.value in evs && WritesMarkers(r.value)
  {
    if evs == [] then None
    else if WritesMarkers(evs[|evs| - 1]) then Some(evs[|evs| - 1])
    else LastMarkerWrite(evs[..|evs| - 1])
  }

  /** The last event of `evs` that writes the restart flag, if any. */
  function LastFlagWrite(evs: seq<Event>): (r: Option<Event>)
    ensures r.Some? ==> r.value in evs && WritesFlag(r.value)
  {
    if evs == [] then None
    else if WritesFlag(evs[|evs| - 1]) then Some(evs[|evs| - 1])
    else LastFlagWrite(evs[..|evs| - 1])
  }

  lemma {:induction false} CountAppend(rs: seq<Req>, more: seq<Req>, r: Req)
    ensures Count(rs + more, r) == Count(rs, r) + Count(more, r)
    decreases |more|
  {
    if more != [] {
      var init := more[..|more| - 1];
      assert (rs + more)[..|rs + more| - 1] == rs + init;
      CountAppend(rs, init, r);
    } else {
      assert rs + more == rs;
    }
  }

  /**
    * RUNNING exists exactly when the last callback that touched the markers
    * was a successful onStarted whose marker was created; STOPPED exists
    * exactly when it was an onStopped that got past the stop script and
    * created its marker. Commands and onPrepare never matter.
    */
  lemma {:induction false} MarkersFollowLastCallback(s: State, evs: seq<Event>)
    ensures Run(s, evs).running ==
      match LastMarkerWrite(evs)
      case None => s.running
      case Some(e) => e == Started(true, true)
    ensures Run(s, evs).stopped ==
      match LastMarkerWrite(evs)
      case None => s.stopped
      case Some(e) => e.Stopped? && e.script != StopUncheckedException && e.created
    decreases |evs|
  {
    if evs != [] {
      MarkersFollowLastCallback(s, evs[..|evs| - 1]);
    }
  }

  /**
    * A restart is pending exactly when the last event that wrote the flag was
    * a RESTART command: every completed onStopped in between consumes it.
    */
  lemma {:induction false} RestartPendingAfterLastRestart(s: State, evs: seq<Event>)
    ensures Run(s, evs).restart ==
      match LastFlagWrite(evs)
      case None => s.restart
      case Some(e) => e.Control?
    decreases |evs|
  {
    if evs != [] {
      RestartPendingAfterLastRestart(s, evs[..|evs| - 1]);
    }
  }

  /** Without a successful, marked onStarted, RUNNING never appears. */
  lemma {:induction false} NoRunningWithoutStart(s: State, evs: seq<Event>)
    requires !s.running
    requires Started(true, true) !in evs
    ensures !Run(s, evs).running
  {
    MarkersFollowLastCallback(s, evs);
  }

  /**
    * Every stop request is accounted for: one per STOP, one per RESTART and
    * one per failed start script, and no other.
    */
  lemma {:induction false} StopRequestsAccounted(s: State, evs: seq<Event>)
    ensures Count(Run(s, evs).requests, Stop) ==
      Count(s.requests, Stop) + Commands(evs, "STOP") + Commands(evs, "RESTART") + FailedStarts(evs)
    decreases |evs|
  {
    if evs != [] {
      var init := evs[..|evs| - 1];
      StopRequestsAccounted(s, init);
      var m := Run(s, init);
      CountAppend(m.requests, Issued(m, evs[|evs| - 1]), Stop);
    }
  }

  /**
    * Start requests never outnumber the START and RESTART commands: a pending
    * restart turns into at most one start, since onStopped clears the flag in
    * the same step in which it reads it.
    */
  lemma {:induction false} StartRequestsBounded(s: State, evs: seq<Event>)
    ensures Count(Run(s, evs).requests, Start) + Pending(Run(s, evs)) <=
      Count(s.requests, Start) + Pending(s) + Commands(evs, "START") + Commands(evs, "RESTART")
    decreases |evs|
  {
    if evs != [] {
      var init := evs[..|evs| - 1];
      StartRequestsBounded(s, init);
      var m := Run(s, init);
      CountAppend(m.requests, Issued(m, evs[|evs| - 1]), Start);
    }
  }

  /** From process start: at most one start per START or RESTART, plus the initial one. */
  lemma StartRequestsFromBoot(created: bool, evs: seq<Event>)
    ensures Count(Run(Initial(created), evs).requests, Start) <=
      1 + Commands(evs, "START") + Commands(evs, "RESTART")
  {
    StartRequestsBounded(Initial(created), evs);
    assert Count([Start], Start) == 1;
  }

  /**
    * A RESTART followed by two completed onStopped callbacks issues one stop
    * and exactly one start: the second callback finds the flag cleared.
    */
  lemma RestartConsumedOnce(s: State, a: StopScript, b: StopScript, c1: bool, c2: bool)
    requires a != StopUncheckedException && b != StopUncheckedException
    ensures var t := Run(s, [Control("RESTART"), Stopped(a, c1), Stopped(b, c2)]);
      t.requests == s.requests + [Stop, Start] && !t.restart && t.stopped == c2 && !t.running
  {
    var e1, e2, e3 := Control("RESTART"), Stopped(a, c1), Stopped(b, c2);
    RunSnoc(s, [], e1);
    assert [] + [e1] == [e1];
    RunSnoc(s, [e1], e2);
    assert [e1] + [e2] == [e1, e2];
    RunSnoc(s, [e1, e2], e3);
    assert [e1, e2] + [e3] == [e1, e2, e3];
    var t1 := Step(s, e1);
    assert t1.restart && t1.requests == s.requests + [Stop];
    var t2 := Step(t1, e2);
    assert !t2.restart && t2.requests == s.requests + [Stop] + [Start];
  }

  /**
    * A STOP after a RESTART does not cancel the pending restart: the next
    * completed onStopped still asks the runner to start.
    */
  lemma StopDoesNotCancelRestart(s: State, script: StopScript, created: bool)
    requires script != StopUncheckedException
    ensures var t := Run(s, [Control("RESTART"), Control("STOP"), Stopped(script, created)]);
      t.requests == s.requests + [Stop, Stop, Start] && !t.restart
  {
    var e1, e2, e3 := Control("RESTART"), Control("STOP"), Stopped(script, created);
    RunSnoc(s, [], e1);
    assert [] + [e1] == [e1];
    RunSnoc(s, [e1], e2);
    assert [e1] + [e2] == [e1, e2];
    RunSnoc(s, [e1, e2], e3);
    assert [e1, e2] + [e3] == [e1, e2, e3];
    var t2 := Step(Step(s, e1), e2);
    assert t2.restart && t2.requests == s.requests + [Stop] + [Stop];
  }

  /**
    * An unchecked exception from the stop script leaves both markers absent
    * and the restart flag untouched; the next completed onStopped consumes it.
    */
  lemma EscapedStopKeepsRestart(s: State, c1: bool, c2: bool)
    requires s.restart
    ensures var t := Run(s, [Stopped(StopUncheckedException, c1), Stopped(StopCompleted, c2)]);
      t.requests == s.requests + [Start] && !t.restart && t.stopped == c2
  {
    RunSnoc(s, [], Stopped(StopUncheckedException, c1));
    RunSnoc(s, [Stopped(StopUncheckedException, c1)], Stopped(StopCompleted, c2));
  }
}
