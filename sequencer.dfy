/** The trial sequencer of the reaction-time test as a state machine over
    values. A `State` holds everything the sequencer reads or writes: the
    recorded times, the "reaction started" flag, whether the button is
    enabled, whether the wait timer runs (and with which interval), and
    whether the session timer runs. Each transition of the application is a
    function from state to state; the class in module App is proved to follow
    these functions, and the lemmas here state what the transitions promise. */
module Sequencer {
  import opened Export

  /** Bounds of the random delay before the stimulus, in milliseconds. The
      source draws it with `random.randint`, which includes both ends. */
  const MIN_DELAY: int := 3000
  const MAX_DELAY: int := 6000

  type Delay = d: int | MIN_DELAY <= d <= MAX_DELAY witness MIN_DELAY

  datatype State = State(
    times: seq<nat>,     // reactionTimes, in recording order
    started: bool,       // reactionStarted
    enabled: bool,       // whether the button is enabled
    waitActive: bool,    // whether waitTimer is running
    waitInterval: int,   // the interval waitTimer was last started with (0 before)
    totalActive: bool)   // whether totalTimer is running

  /** The phases of a session. The source keeps no phase variable: the phase
      is read off the timers and the flag. */
  datatype Phase = Idle | Waiting | Armed | Ended

  function PhaseOf(s: State): Phase {
    if !s.totalActive then Ended
    else if s.waitActive then Waiting
    else if s.started then Armed
    else Idle
  }

  /** The states a session can be in: in each phase the button is enabled
      exactly when a click has something to do, and a running wait timer
      always carries a delay drawn from the allowed range. */
  predicate Consistent(s: State) {
    match PhaseOf(s)
    case Idle => s.enabled && !s.started
    case Waiting => !s.enabled && !s.started && MIN_DELAY <= s.waitInterval <= MAX_DELAY
    case Armed => s.enabled
    case Ended => !s.enabled && !s.waitActive
  }

  /** The state after the window is built: nothing recorded, the button
      enabled (Qt's default), the wait timer idle, the session timer running. */
  function Initial(): (s: State)
    ensures Consistent(s) && PhaseOf(s) == Idle && s.times == []
  {
    State([], false, true, false, 0, true)
  }

  /** prepareStimuli: disable the button, clear the flag, arm the wait timer. */
  function Prepare(s: State, delay: Delay): State {
    s.(enabled := false, started := false, waitActive := true, waitInterval := delay)
  }

  /** showStimuli: stop the wait timer, enable the button, set the flag. */
  function Show(s: State): State {
    s.(waitActive := false, enabled := true, started := true)
  }

  /** recordReaction: when the flag is set, append the elapsed time, prepare
      the next trial and clear the flag; otherwise do nothing. */
  function Record(s: State, elapsed: nat, delay: Delay): State {
    if s.started then Prepare(s.(times := s.times + [elapsed]), delay).(started := false) else s
  }

  /** A press on the button. A disabled button ignores it. An enabled one
      calls recordReaction on the press and, if it is still enabled when the
      press completes, emits `clicked`, which calls prepareStimuli. The same
      random draw serves whichever of the two reaches prepareStimuli. */
  function Click(s: State, elapsed: nat, delay: Delay): State {
    if !s.enabled then s
    else
      var pressed := Record(s, elapsed, delay);
      if pressed.enabled then Prepare(pressed, delay) else pressed
  }

  /** endTest: stop both timers and disable the button. */
  function End(s: State): State {
    s.(waitActive := false, totalActive := false, enabled := false)
  }

  /** What the host event loop delivers, one at a time. A stopped timer
      delivers nothing, so its timeout leaves the state as it is. */
  datatype Event =
    | Press(elapsed: nat, delay: Delay)
    | WaitTimeout
    | TotalTimeout

  function Deliver(s: State, e: Event): State {
    match e
    case Press(elapsed, delay) => Click(s, elapsed, delay)
    case WaitTimeout => if s.waitActive then Show(s) else s
    case TotalTimeout => if s.totalActive then End(s) else s
  }

  function Run(s: State, events: seq<Event>): State
    decreases |events|
  {
    if events == [] then s else Run(Deliver(s, events[0]), events[1..])
  }

  // ---------------------------------------------------------------------
  // One transition at a time

  /** prepareStimuli always enters the waiting phase, with the wait timer
      armed for a delay in [MIN_DELAY, MAX_DELAY], and records nothing. */
  lemma PrepareEntersWaiting(s: State, delay: Delay)
    requires s.totalActive
    ensures var r := Prepare(s, delay);
      Consistent(r) && PhaseOf(r) == Waiting &&
      r.waitActive && r.waitInterval == delay && MIN_DELAY <= r.waitInterval <= MAX_DELAY &&
      !r.enabled && !r.started && r.times == s.times && r.totalActive
  {
  }

  /** showStimuli arms the trial: the wait timer stops, the button is enabled,
      the flag is set, and the recorded times stay as they were. */
  lemma ShowArms(s: State)
    requires Consistent(s) && PhaseOf(s) == Waiting
    ensures var r := Show(s);
      Consistent(r) && PhaseOf(r) == Armed &&
      !r.waitActive && r.enabled && r.started && r.times == s.times && r.totalActive
  {
  }

  /** recordReaction changes nothing at all exactly when the flag is clear. */
  lemma RecordIgnoredUnlessStarted(s: State, elapsed: nat, delay: Delay)
    ensures Record(s, elapsed, delay) == s <==> !s.started
  {
  }

  /** A recordReaction with the flag set appends exactly the elapsed time at
      the end, keeps the earlier entries, and leaves the sequencer waiting for
      the next stimulus. */
  lemma RecordAppendsWhenStarted(s: State, elapsed: nat, delay: Delay)
    requires s.started && s.totalActive
    ensures var r := Record(s, elapsed, delay);
      r.times == s.times + [elapsed] && r.times[..|s.times|] == s.times &&
      Consistent(r) && PhaseOf(r) == Waiting &&
      !r.started && !r.enabled && r.waitActive && r.waitInterval == delay
  {
  }

  /** What a press does in each phase: it starts the first trial from Idle,
      records the elapsed time when Armed, and is ignored while Waiting and
      after the end. */
  lemma ClickByPhase(s: State, elapsed: nat, delay: Delay)
    requires Consistent(s)
    ensures Consistent(Click(s, elapsed, delay))
    ensures PhaseOf(s) == Idle ==>
      Click(s, elapsed, delay) == Prepare(s, delay) && PhaseOf(Click(s, elapsed, delay)) == Waiting
    ensures PhaseOf(s) == Waiting || PhaseOf(s) == Ended ==> Click(s, elapsed, delay) == s
    ensures PhaseOf(s) == Armed ==>
      Click(s, elapsed, delay).times == s.times + [elapsed] &&
      PhaseOf(Click(s, elapsed, delay)) == Waiting &&
      Click(s, elapsed, delay).waitInterval == delay
  {
  }

  /** endTest ends the session from any state, touches no recorded time, and
      a second call changes nothing, so it exports the same rows again. */
  lemma EndIsFinalAndIdempotent(s: State)
    ensures Consistent(End(s)) && PhaseOf(End(s)) == Ended
    ensures !End(s).waitActive && !End(s).totalActive && !End(s).enabled
    ensures End(s).times == s.times
    ensures End(End(s)) == End(s)
    ensures ExportRows(End(End(s)).times) == ExportRows(s.times)
  {
  }

  /** No delivered event other than a press while Armed changes the recorded
      times, and that one appends the press's elapsed time. */
  lemma DeliverTimes(s: State, e: Event)
    requires Consistent(s)
    ensures Consistent(Deliver(s, e))
    ensures Deliver(s, e).times ==
      if e.Press? && PhaseOf(s) == Armed then s.times + [e.elapsed] else s.times
  {
  }

  // ---------------------------------------------------------------------
  // Whole sessions

  /** Every state a run reaches from a consistent state is consistent. */
  lemma {:induction false} RunConsistent(s: State, events: seq<Event>)
    requires Consistent(s)
    ensures Consistent(Run(s, events))
    decreases |events|
  {
    if events != [] {
      DeliverTimes(s, events[0]);
      RunConsistent(Deliver(s, events[0]), events[1..]);
    }
  }

  /** The recorded list is append-only: what was recorded before a run is a
      prefix of what is recorded after it, and each event adds at most one
      time. */
  lemma {:induction false} RunAppendOnly(s: State, events: seq<Event>)
    requires Consistent(s)
    ensures s.times <= Run(s, events).times
    ensures |Run(s, events).times| <= |s.times| + |events|
    decreases |events|
  {
    if events != [] {
      var next := Deliver(s, events[0]);
      DeliverTimes(s, events[0]);
      RunAppendOnly(next, events[1..]);
    }
  }

  /** Once the session has ended, no event changes anything: the button is
      disabled, so presses are ignored, and both timers are stopped. */
  lemma {:induction false} EndedIsFinal(s: State, events: seq<Event>)
    requires Consistent(s) && PhaseOf(s) == Ended
    ensures Run(s, events) == s
    decreases |events|
  {
    if events != [] {
      DeliverTimes(s, events[0]);
      EndedIsFinal(s, events[1..]);
    }
  }

  /** Presses before the stimulus appears are never recorded: from Idle or
      Waiting, any sequence of presses alone leaves the recorded list as it
      was and the sequencer before the stimulus. */
  lemma {:induction false} PressesBeforeStimulusIgnored(s: State, events: seq<Event>)
    requires Consistent(s) && (PhaseOf(s) == Idle || PhaseOf(s) == Waiting)
    requires forall i :: 0 <= i < |events| ==> events[i].Press?
    ensures Run(s, events).times == s.times
    ensures PhaseOf(Run(s, events)) == Idle || PhaseOf(Run(s, events)) == Waiting
    decreases |events|
  {
    if events != [] {
      var e := events[0];
      ClickByPhase(s, e.elapsed, e.delay);
      PressesBeforeStimulusIgnored(Deliver(s, e), events[1..]);
    }
  }

  // ---------------------------------------------------------------------
  // Sessions written out

  /** A session that ends before any press exports the header alone. */
  lemma NoClicksExportsHeaderOnly()
    ensures ExportRows(Run(Initial(), [TotalTimeout]).times) == [HEADER]
  {
  }

  /** Start, wait for the stimulus, respond after 250 ms: one time, 250. */
  lemma SingleReactionRecorded()
    ensures Run(Initial(), [Press(0, 3000), WaitTimeout, Press(250, 3000)]).times == [250]
  {
  }

  /** Three completed trials of 300, 450 and 220 ms, then the session timer:
      the export is the header and those three times, in that order. */
  lemma ThreeTrialsExportedInOrder()
    ensures var events := [Press(0, 4000), WaitTimeout, Press(300, 5000), WaitTimeout,
                           Press(450, 3500), WaitTimeout, Press(220, 6000), TotalTimeout];
      ExportRows(Run(Initial(), events).times) == [HEADER, "300", "450", "220"]
  {
    assert NatToString(300) == "300";
    assert NatToString(450) == "450";
    assert NatToString(220) == "220";
  }
}
