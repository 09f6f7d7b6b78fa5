/** The button-press state machine over the pair (game state, tutorial stage),
    together with the print flag every press raises, the initial state set at
    start-up and the disconnection event that ends the match. */
module Button {
  import opened GameStates

  /** The globals a button press reads and writes. */
  datatype Machine = Machine(game: GameState, tutorial: TutorialState, printFlag: bool)

  /** The two external events that change the machine. */
  datatype Event = ButtonRise | Disconnection

  /** The game states in which a press changes neither the game state nor the
      tutorial stage. */
  predicate PressIgnored(g: GameState) {
    g in {GameCalibrationNear, GameCalibrationFar, GamePaused, GameEnding, GameEnded}
  }

  /** The tutorial stage after the current one; the last stage has no successor
      and is left as it is. */
  function NextTutorial(t: TutorialState): (r: TutorialState)
    ensures t != TutorialGameEnd ==> TutorialIndex(r) == TutorialIndex(t) + 1
    ensures t == TutorialGameEnd ==> r == t
  {
    if t == TutorialStart then TutorialNear
    else if t == TutorialNear then TutorialFar
    else if t == TutorialFar then TutorialAlt
    else if t == TutorialAlt then TutorialNot
    else if t == TutorialNot then TutorialPause
    else if t == TutorialPause then TutorialGameEnd
    else t
  }

  /** The button release handler. */
  function Press(m: Machine): (r: Machine)
    ensures r.printFlag
    ensures m.game != GameTutorial ==> r.tutorial == m.tutorial
    ensures m.game == GameTutorial && m.tutorial != TutorialGameEnd ==>
      r.game == GameTutorial && TutorialIndex(r.tutorial) == TutorialIndex(m.tutorial) + 1
    ensures m.game == GameTutorial && m.tutorial == TutorialGameEnd ==>
      r.game == GameStarted && r.tutorial == TutorialGameEnd
  {
    var m := m.(printFlag := true);
    if m.game == GameInitialized then m.(game := GameCalibrationNear)
    else if m.game == GameCalibrationNearPending then m.(game := GameCalibrationFar)
    else if m.game == GameCalibrationFarPending then m.(game := GameTutorial)
    else if m.game == GameTutorial then
      if m.tutorial == TutorialGameEnd then m.(game := GameStarted)
      else m.(tutorial := NextTutorial(m.tutorial))
    else if m.game == GameStarted then m.(game := GamePaused)
    else if m.game == GamePausedPending then m.(game := GameStarted)
    else if m.game == GameEndedPending then m.(game := GameStarted)
    else m
  }

  /** The disconnection handler: the match ends whatever the current state. */
  function Disconnect(m: Machine): (r: Machine)
    ensures r.game == GameEnded
    ensures r.tutorial == m.tutorial && r.printFlag == m.printFlag
  {
    m.(game := GameEnded)
  }

  /** The state set at start-up, once the sensor and button are wired; the
      print flag is not touched there. */
  function Initialize(m: Machine): (r: Machine)
    ensures r.game == GameInitialized && r.tutorial == TutorialStart
    ensures r.printFlag == m.printFlag
  {
    Machine(GameInitialized, TutorialStart, m.printFlag)
  }

  function Step(m: Machine, e: Event): Machine {
    match e
    case ButtonRise => Press(m)
    case Disconnection => Disconnect(m)
  }

  /** The machine after the events `es`, in order. */
  function Run(m: Machine, es: seq<Event>): Machine
    decreases |es|
  {
    if es == [] then m else Run(Step(m, es[0]), es[1..])
  }

  /** The machine after `n` consecutive presses. */
  function Presses(m: Machine, n: nat): (r: Machine)
    ensures n > 0 ==> r.printFlag
    ensures n == 0 ==> r == m
    ensures PressIgnored(m.game) ==> r.game == m.game && r.tutorial == m.tutorial
  {
    if n == 0 then m else Press(Presses(m, n - 1))
  }

  /** The setup chain: each step moves to the next declared game state, and
      the tutorial stage stays where it is. */
  lemma SetupChain(m: Machine)
    requires m.game in {GameInitialized, GameCalibrationNearPending, GameCalibrationFarPending}
    ensures GameStateOrdinal(Press(m).game) == GameStateOrdinal(m.game) + 1
    ensures m.game == GameInitialized ==> Press(m).game == GameCalibrationNear
    ensures m.game == GameCalibrationNearPending ==> Press(m).game == GameCalibrationFar
    ensures m.game == GameCalibrationFarPending ==> Press(m).game == GameTutorial
    ensures Press(m).tutorial == m.tutorial
  {
  }

  /** Play and pause: a press pauses a running game and resumes from either
      waiting state after a pause or after a game end. */
  lemma PlayToggles(m: Machine)
    ensures m.game == GameStarted ==> Press(m).game == GamePaused
    ensures m.game in {GamePausedPending, GameEndedPending} ==> Press(m).game == GameStarted
  {
  }

  /** A press leaves both state variables unchanged exactly in the five
      ignored states; every waiting state is resolved by a press, and no
      press ever enters a waiting state. */
  lemma PressIgnoredExactly(m: Machine)
    ensures Press(m).game == m.game && Press(m).tutorial == m.tutorial <==> PressIgnored(m.game)
    ensures IsPending(m.game) ==> Press(m).game != m.game
    ensures !IsPending(Press(m).game)
  {
  }

  /** Starting from the first tutorial stage, the first six presses walk the
      tutorial stages in order without leaving the tutorial. */
  lemma {:induction false} TutorialWalk(m: Machine, k: nat)
    requires m.game == GameTutorial && m.tutorial == TutorialStart
    requires k < |TutorialOrder|
    ensures Presses(m, k).game == GameTutorial
    ensures Presses(m, k).tutorial == TutorialOrder[k]
  {
    if k > 0 {
      TutorialWalk(m, k - 1);
      var before := Presses(m, k - 1);
      assert TutorialIndex(before.tutorial) == k - 1;
      assert TutorialIndex(Press(before).tutorial) == k;
    }
  }

  /** After the seventh press the game is paused by every further press and
      stays paused. */
  lemma {:induction false} PressesAfterStart(m: Machine, k: nat)
    requires m.game == GameTutorial && m.tutorial == TutorialStart
    requires k >= 8
    ensures Presses(m, k).game == GamePaused
  {
    if k == 8 {
      TutorialWalk(m, 6);
    } else {
      PressesAfterStart(m, k - 1);
    }
  }

  /** From the first tutorial stage, exactly seven presses start the game:
      no fewer do, and no more do either. */
  lemma SevenPressesStartTheGame(m: Machine, k: nat)
    requires m.game == GameTutorial && m.tutorial == TutorialStart
    ensures Presses(m, k).game == GameStarted <==> k == 7
    ensures k == 7 ==> Presses(m, k).tutorial == TutorialGameEnd
  {
    if k < 7 {
      TutorialWalk(m, k);
    } else if k == 7 {
      TutorialWalk(m, 6);
    } else {
      PressesAfterStart(m, k);
    }
  }

  /** Once the match has ended, no sequence of presses and disconnections
      leaves the ended state, and the tutorial stage is frozen. */
  lemma {:induction false} EndedIsAbsorbing(m: Machine, es: seq<Event>)
    requires m.game == GameEnded
    ensures Run(m, es).game == GameEnded
    ensures Run(m, es).tutorial == m.tutorial
    decreases |es|
  {
    if es != [] {
      EndedIsAbsorbing(Step(m, es[0]), es[1..]);
    }
  }

  /** The states reachable with the events modelled here: the first
      calibration stage is never left by a press, because the waiting states
      after it are not entered by any button or disconnection event. */
  predicate ReachableShape(m: Machine) {
    m.tutorial == TutorialStart && m.game in {GameInitialized, GameCalibrationNear, GameEnded}
  }

  lemma {:induction false} ReachableShapeInvariant(m: Machine, es: seq<Event>)
    requires ReachableShape(m)
    ensures ReachableShape(Run(m, es))
    decreases |es|
  {
    if es != [] {
      ReachableShapeInvariant(Step(m, es[0]), es[1..]);
    }
  }

  /** From the start-up state, presses and disconnections reach exactly the
      initialized, near-calibration and ended states, and the game never
      starts without the calibration stages moving it on. */
  lemma ReachableFromStartup(m: Machine, es: seq<Event>)
    ensures ReachableShape(Run(Initialize(m), es))
    ensures Run(Initialize(m), es).game != GameStarted
    ensures Run(Initialize(m), []).game == GameInitialized
    ensures Run(Initialize(m), [ButtonRise]).game == GameCalibrationNear
    ensures Run(Initialize(m), [Disconnection]).game == GameEnded
  {
    ReachableShapeInvariant(Initialize(m), es);
    assert [ButtonRise][1..] == [];
    assert [Disconnection][1..] == [];
  }
}
