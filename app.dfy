/** The application object of the reaction-time test, with its widgets and
    timers reduced to the state the sequencer reads and writes. Each method
    changes its fields in place, as the source's methods do, and is proved to
    move the object's state exactly as the matching function of module
    Sequencer does. Timer timeouts become calls of ShowStimuli and EndTest,
    the elapsed-time reading and the random delay become parameters. */
module App {
  import opened Sequencer
  import opened Export

  class ReactionTimeApp {
    var times: seq<nat>
    var started: bool
    var enabled: bool
    var waitActive: bool
    var waitInterval: int
    var totalActive: bool

    /** The object's state as a value. */
    function Snapshot(): State
      reads this
    {
      State(times, started, enabled, waitActive, waitInterval, totalActive)
    }

    ghost predicate Valid()
      reads this
    {
      Consistent(Snapshot())
    }

    /** The window as built: nothing recorded, the button enabled, the wait
        timer idle and the session timer started. */
    constructor ()
      ensures Valid() && Snapshot() == Initial()
      ensures PhaseOf(Snapshot()) == Idle
    {
      times := [];
      started := false;
      enabled := true;
      waitActive := false;
      waitInterval := 0;
      totalActive := true;
    }

    /** Reached from the button's `clicked` signal and from RecordReaction,
        both only while the button is enabled. */
    method PrepareStimuli(delay: Delay)
      requires Valid() && enabled
      modifies this
      ensures Valid() && Snapshot() == Prepare(old(Snapshot()), delay)
      ensures PhaseOf(Snapshot()) == Waiting
      ensures times == old(times) && !enabled && !started
      ensures waitActive && waitInterval == delay && MIN_DELAY <= waitInterval <= MAX_DELAY
    {
      enabled := false;
      started := false;
      waitActive, waitInterval := true, delay;
    }

    /** The wait timer's timeout; it fires only while that timer runs. */
    method ShowStimuli()
      requires Valid() && waitActive
      modifies this
      ensures Valid() && Snapshot() == Show(old(Snapshot()))
      ensures PhaseOf(Snapshot()) == Armed
      ensures times == old(times) && !waitActive && enabled && started
    {
      waitActive := false;
      enabled := true;
      started := true;
    }

    /** Called on a press of the button, and only while it is enabled. */
    method RecordReaction(elapsed: nat, delay: Delay)
      requires Valid() && enabled
      modifies this
      ensures Valid() && Snapshot() == Record(old(Snapshot()), elapsed, delay)
      ensures !old(started) ==> Snapshot() == old(Snapshot())
      ensures old(started) ==> times == old(times) + [elapsed] && PhaseOf(Snapshot()) == Waiting
      ensures old(started) ==> !started && !enabled && waitActive && waitInterval == delay
    {
      if started {
        times := times + [elapsed];
        PrepareStimuli(delay);
        started := false;
      }
    }

    /** A press on the button: ignored unless the button is enabled; then
        recordReaction runs, and the press completes as a click (starting a
        trial) only if the button is still enabled afterwards. */
    method Click(elapsed: nat, delay: Delay)
      requires Valid()
      modifies this
      ensures Valid() && Snapshot() == Sequencer.Click(old(Snapshot()), elapsed, delay)
      ensures !old(enabled) ==> Snapshot() == old(Snapshot())
      ensures old(PhaseOf(Snapshot())) == Idle ==>
        times == old(times) && PhaseOf(Snapshot()) == Waiting && waitInterval == delay
      ensures old(PhaseOf(Snapshot())) == Armed ==>
        times == old(times) + [elapsed] && PhaseOf(Snapshot()) == Waiting && waitInterval == delay
    {
      if enabled {
        RecordReaction(elapsed, delay);
        if enabled {
          PrepareStimuli(delay);
        }
      }
      ClickByPhase(old(Snapshot()), elapsed, delay);
    }

    /** The session timer's timeout: stop both timers, disable the button,
        and return the rows written out. */
    method EndTest() returns (rows: seq<string>)
      requires Valid()
      modifies this
      ensures Valid() && Snapshot() == End(old(Snapshot()))
      ensures PhaseOf(Snapshot()) == Ended && !waitActive && !totalActive && !enabled
      ensures times == old(times)
      ensures rows == ExportRows(times)
    {
      waitActive := false;
      totalActive := false;
      enabled := false;
      rows := WriteRows(times);
    }
  }

  /** One trial on a waiting object: the wait timer fires, then the button
      is pressed after `elapsed` ms and the next wait is armed. */
  method Trial(app: ReactionTimeApp, elapsed: nat, delay: Delay)
    requires app.Valid() && PhaseOf(app.Snapshot()) == Waiting
    modifies app
    ensures app.Valid() && PhaseOf(app.Snapshot()) == Waiting
    ensures app.times == old(app.times) + [elapsed]
  {
    app.ShowStimuli();
    app.Click(elapsed, delay);
  }

  /** A session driven through the object: the first press starts a trial,
      three stimuli are answered after 300, 450 and 220 ms, a press during a
      wait is ignored, and the session timer ends the test. The rows written
      are the header and the three times in order; a second end writes the
      same rows. */
  method ThreeTrialSession() returns (rows: seq<string>, again: seq<string>)
    ensures rows == [HEADER, "300", "450", "220"]
    ensures again == rows
  {
    var app := new ReactionTimeApp();
    app.Click(0, 4000);
    Trial(app, 300, 5000);
    app.Click(10, 3000);
    Trial(app, 450, 3500);
    Trial(app, 220, 6000);
    rows := app.EndTest();
    again := app.EndTest();
    assert NatToString(300) == "300";
    assert NatToString(450) == "450";
    assert NatToString(220) == "220";
  }
}
