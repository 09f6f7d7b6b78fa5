/** The shared enums and constants of the game: the game phase, the tutorial
    stage, the instruction and sensor-reading phases, and the distance
    thresholds (in millimetres) with their acceptance margin. */
module GameStates {

  /** Acceptance margin applied to both thresholds. */
  const ErrValue: int := 50
  /** Threshold used for "near" before any calibration. */
  const DefaultNearDist: int := 150
  /** Threshold used for "far" before any calibration. */
  const DefaultFarDist: int := 250

  /** Whether a new instruction needs to be generated. */
  datatype InstructionState =
    | NewInstructionOn
    | NewInstructionOff
    | AlterInstructionOn
    | EndInstructionStart
    | EndInstructionOn

  /** Whether the distance sensor needs to be read. */
  datatype ReadInputState =
    | ReadInputStarted
    | ReadInputOn
    | ReadInputEnded
    | ReadInputOff

  /** The phase of the whole game, in declaration order. */
  datatype GameState =
    | GameInitialized
    | GameCalibrationNear
    | GameCalibrationNearPending
    | GameCalibrationFar
    | GameCalibrationFarPending
    | GameTutorial
    | GameStarted
    | GamePaused
    | GamePausedPending
    | GameEnding
    | GameEnded
    | GameEndedPending

  /** The stage of the tutorial, in declaration order. */
  datatype TutorialState =
    | TutorialStart
    | TutorialNear
    | TutorialFar
    | TutorialAlt
    | TutorialNot
    | TutorialPause
    | TutorialGameEnd

  /** Every game state, listed in declaration order. */
  const AllGameStates: seq<GameState> := [
    GameInitialized, GameCalibrationNear, GameCalibrationNearPending,
    GameCalibrationFar, GameCalibrationFarPending, GameTutorial,
    GameStarted, GamePaused, GamePausedPending,
    GameEnding, GameEnded, GameEndedPending
  ]

  /** The tutorial stages in the order the player walks through them. */
  const TutorialOrder: seq<TutorialState> := [
    TutorialStart, TutorialNear, TutorialFar, TutorialAlt,
    TutorialNot, TutorialPause, TutorialGameEnd
  ]

  /** The waiting states that a button press resolves. */
  predicate IsPending(g: GameState) {
    g in {GameCalibrationNearPending, GameCalibrationFarPending,
          GamePausedPending, GameEndedPending}
  }

  /** The enum value of a game state: its position in the declaration. */
  function GameStateOrdinal(g: GameState): (i: nat)
    ensures i < |AllGameStates| && AllGameStates[i] == g
  {
    match g
    case GameInitialized => 0
    case GameCalibrationNear => 1
    case GameCalibrationNearPending => 2
    case GameCalibrationFar => 3
    case GameCalibrationFarPending => 4
    case GameTutorial => 5
    case GameStarted => 6
    case GamePaused => 7
    case GamePausedPending => 8
    case GameEnding => 9
    case GameEnded => 10
    case GameEndedPending => 11
  }

  /** The enum value of a tutorial stage: its position along the tutorial. */
  function TutorialIndex(t: TutorialState): (i: nat)
    ensures i < |TutorialOrder| && TutorialOrder[i] == t
  {
    match t
    case TutorialStart => 0
    case TutorialNear => 1
    case TutorialFar => 2
    case TutorialAlt => 3
    case TutorialNot => 4
    case TutorialPause => 5
    case TutorialGameEnd => 6
  }

  /** There are exactly twelve game states, all distinct. */
  lemma GameStatesEnumerated()
    ensures |AllGameStates| == 12
    ensures forall g: GameState :: g in AllGameStates
    ensures forall i, j :: 0 <= i < j < |AllGameStates| ==> AllGameStates[i] != AllGameStates[j]
  {
    forall g: GameState ensures g in AllGameStates {
      assert AllGameStates[GameStateOrdinal(g)] == g;
    }
  }

  /** The tutorial is a linear order of seven distinct stages from start to game end. */
  lemma TutorialIsLinear()
    ensures |TutorialOrder| == 7
    ensures TutorialOrder[0] == TutorialStart && TutorialOrder[6] == TutorialGameEnd
    ensures forall t: TutorialState :: t in TutorialOrder
    ensures forall i, j :: 0 <= i < j < |TutorialOrder| ==> TutorialOrder[i] != TutorialOrder[j]
    ensures forall t, u: TutorialState :: TutorialIndex(t) == TutorialIndex(u) ==> t == u
  {
    forall t: TutorialState ensures t in TutorialOrder {
      assert TutorialOrder[TutorialIndex(t)] == t;
    }
  }

}
