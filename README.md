# Reaction-time test: the trial sequencer

This project models the trial sequencer of a small reaction-time test. The
participant presses a button to start. The program waits a random 3000 to 6000
ms, then shows a stimulus: the button turns active. The participant presses
again as fast as they can, and the elapsed time is recorded. A session timer
ends the test, disables the button and writes the recorded times out as rows:
a header `Reaction Time (ms)`, then one row per time, in recording order.

The model has three modules:

- `Export` (`export.dfy`) holds the rows written at the end of the session. It
  has the decimal text of a time, the header, the rows, and a reader that the
  rows are proved to round-trip through. It also holds the writing loop
  (`WriteRows`), proved to produce exactly those rows.
- `Sequencer` (`sequencer.dfy`) is the sequencer as a state machine over
  values. The state has six parts:
  - the recorded times;
  - the "reaction started" flag;
  - whether the button is enabled;
  - whether the wait timer runs, and the interval it was started with;
  - whether the session timer runs.

  Each transition of the application is a function of this module. A session
  is a sequence of events (button presses, wait-timer timeouts, session-timer
  timeouts) that the event loop delivers one at a time. The lemmas state what
  one transition does and what holds over whole sessions. The source keeps no
  phase variable, so the phases Idle, Waiting, Armed and Ended are read off the
  timers and the flag.
- `App` (`app.dfy`) holds the class `ReactionTimeApp`. Its fields are the ones
  the source's methods update in place. Each method changes those fields step
  by step, as the source does, and is proved to move the object's state exactly
  as the matching `Sequencer` function does. Each method also keeps the
  invariant `Valid()`. A client method drives a whole session through the
  object.

Some parts of the environment become inputs:

- A timer timeout becomes a call: `ShowStimuli` for the wait timer and
  `EndTest` for the session timer. A timer that is not running fires nothing.
- The reaction timer's reading becomes an `elapsed: nat` parameter.
- The draw of `random.randint(3000, 6000)` becomes a `delay` parameter of the
  subset type `Delay`, which holds exactly 3000..6000.

Behaviours of the code worth knowing:

- A press on the enabled button in the initial state starts the first trial
  (app.py:14-16, app.py:56). `recordReaction` does nothing there, because the
  flag is clear. The press then completes as a click, and the button's
  `clicked` signal calls `prepareStimuli`.
- `endTest` leaves the "reaction started" flag as it was (app.py:108-119). If
  the session ends while a stimulus is shown, the flag stays set. The button is
  disabled, so no later press reaches `recordReaction` (app.py:14, app.py:124).
- `endTest` writes the file in mode `'w'` (app.py:114). A second call would
  rewrite the same rows, because nothing in between changes the list.
- The application keeps no "ended" flag. The end of the session shows as the
  stopped session timer (app.py:110), and the model reads the Ended phase off
  it.

## Model

| member | source | states |
|---|---|---|
| `Export.NatToString` | app.py:117-118 | a time is written as at least one decimal digit, with no leading zero except in "0" |
| `Export.NatToStringRoundTrip` | app.py:117-118 | reading a written time back gives the same time |
| `Export.NatToStringInjective` | app.py:117-118 | different times give different rows |
| `Export.DataRows` | app.py:117-118 | one row per recorded time; row i is time i's text |
| `Export.ExportRows` | app.py:114-118 | the export has 1 + (number of times) rows: the header first, then time i's text at row i+1 |
| `Export.HeaderIsNotData` | app.py:116 | the header row is never read as a time |
| `Export.DataRowsRoundTrip` | app.py:117-118 | the data rows read back to exactly the recorded times, in order |
| `Export.ExportRoundTrip` | app.py:114-118 | the whole export reads back to exactly the recorded times, in order |
| `Export.ExportInjective` | app.py:114-118 | two sessions give the same export only if they recorded the same times |
| `Export.WriteRows` | app.py:114-118 | the writing loop produces exactly the header followed by the data rows |
| `Sequencer.Prepare` | app.py:71-83 | no contract of its own; `Sequencer.PrepareEntersWaiting` states it |
| `Sequencer.Show` | app.py:85-97 | no contract of its own; `Sequencer.ShowArms` states it |
| `Sequencer.Record` | app.py:99-106 | no contract of its own; `Sequencer.RecordIgnoredUnlessStarted` and `Sequencer.RecordAppendsWhenStarted` state it |
| `Sequencer.Click` | app.py:12-16 | no contract of its own; `Sequencer.ClickByPhase` states it (the `clicked` connection is app.py:56) |
| `Sequencer.End` | app.py:108-111 | no contract of its own; `Sequencer.EndIsFinalAndIdempotent` states it |
| `Sequencer.Deliver` | app.py:29-37 | no contract of its own; the event loop's dispatch of one press or timeout; `Sequencer.DeliverTimes` states it |
| `Sequencer.Run` | app.py:29-37 | no contract of its own; events delivered one at a time; `Sequencer.RunConsistent`, `Sequencer.RunAppendOnly` and `Sequencer.EndedIsFinal` state it |
| `Sequencer.Initial` | app.py:19-43 | the initial state is consistent and Idle, with nothing recorded |
| `Sequencer.PrepareEntersWaiting` | app.py:71-83 | prepareStimuli enters Waiting: button disabled, flag clear, wait timer armed with a delay in [3000, 6000], times unchanged |
| `Sequencer.ShowArms` | app.py:85-97 | showStimuli moves from Waiting to Armed: wait timer stopped, button enabled, flag set, times unchanged |
| `Sequencer.RecordIgnoredUnlessStarted` | app.py:99-106 | recordReaction leaves the whole state unchanged if and only if the flag is clear |
| `Sequencer.RecordAppendsWhenStarted` | app.py:101-106 | with the flag set, recordReaction appends exactly the elapsed time, keeps earlier entries, and leaves the sequencer Waiting with the new delay |
| `Sequencer.ClickByPhase` | app.py:12-16 | a press starts the first trial from Idle, records the elapsed time when Armed, and is ignored while Waiting and after the end; every phase stays consistent |
| `Sequencer.EndIsFinalAndIdempotent` | app.py:108-118 | endTest stops both timers, disables the button and keeps the times; a second call changes nothing and exports the same rows |
| `Sequencer.DeliverTimes` | app.py:71-119 | the only event that changes the recorded times is a press while Armed, and it appends that press's elapsed time |
| `Sequencer.RunConsistent` | app.py:71-111 | every state a session reaches from a consistent state is consistent |
| `Sequencer.RunAppendOnly` | app.py:99-106 | the recorded times before a session are a prefix of those after it; each event adds at most one time |
| `Sequencer.EndedIsFinal` | app.py:108-111 | after the end, no sequence of events changes anything |
| `Sequencer.PressesBeforeStimulusIgnored` | app.py:101-106 | presses in Idle or Waiting alone never record a time, and the sequencer stays in Idle or Waiting |
| `Sequencer.NoClicksExportsHeaderOnly` | app.py:114-118 | a session that ends without presses exports the header alone |
| `Sequencer.SingleReactionRecorded` | app.py:96-103 | start, stimulus, press after 250 ms: the recorded list is [250] |
| `Sequencer.ThreeTrialsExportedInOrder` | app.py:99-118 | three trials of 300, 450 and 220 ms export the header and "300", "450", "220" in that order |
| `App.ReactionTimeApp.constructor` | app.py:19-43 | the new object is Valid and in the initial state |
| `App.ReactionTimeApp.PrepareStimuli` | app.py:71-83 | the fields move as Prepare says: Waiting, delay in [3000, 6000], times unchanged |
| `App.ReactionTimeApp.ShowStimuli` | app.py:85-97 | the fields move as Show says: Armed, times unchanged |
| `App.ReactionTimeApp.RecordReaction` | app.py:99-106 | the fields move as Record says: unchanged when the flag is clear; otherwise the elapsed time is appended and the sequencer waits again |
| `App.ReactionTimeApp.Click` | app.py:12-16 | the fields move as Click says: unchanged when the button is disabled; from Idle a trial starts; from Armed the elapsed time is appended |
| `App.ReactionTimeApp.EndTest` | app.py:108-119 | the fields move as End says: Ended, times unchanged; the returned rows are the export of the times |
| `App.Trial` | app.py:85-106 | a stimulus followed by a press appends exactly that press's elapsed time and waits again |
| `App.ThreeTrialSession` | app.py:99-118 | a session of three answered stimuli, with an ignored press while waiting, writes the header and the three times in order, and a second end writes the same rows |

## Left out

- Widgets, layouts, style sheets, window geometry, and the label and button texts (app.py:45-69 and the text and style lines of each method). They are presentation only.
- Real time. The timers' timeouts are explicit calls or events. The reaction timer's reading is the `elapsed` parameter. Nothing ties it to a clock.
- `random.randint`. The delay is a parameter restricted to 3000..6000, which is the range of values that call can return.
- The file, the `csv` module's quoting and line terminators, and write failures. The model produces the sequence of row texts. Each row has a single cell, and neither the header nor a number needs quoting.
- The `print` calls, the `__main__` block and the Qt event loop. The event loop appears only as `Sequencer.Run`, which delivers events one at a time.
- The session length of 120000 ms (app.py:37). It is only a timer argument. The comment beside it says one minute.
- Event propagation between the button's and the window's `mousePressEvent` (app.py:12-16, app.py:121-126). Both forward a press to `recordReaction` only while the button is enabled. They are modelled as a single `Click`.
- Three Qt behaviours are assumed, not modelled:
  - A disabled button receives no press and emits no `clicked`.
  - A press that disables the button, through `recordReaction` → `prepareStimuli`, does not complete as a click.
  - A press on the enabled button that leaves it enabled is taken to complete as a left click released over the button. So from Idle every press starts a trial. A right or middle press, or a press released off the button, would leave the program Idle; the model does not capture that.
