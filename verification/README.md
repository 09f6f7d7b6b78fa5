# Not Not Flappy Bird — decision logic in Dafny

This project models the decision logic of a motion-reaction game for an
embedded board. A distance sensor measures where the player's hand is. Two
LEDs show an instruction: near, far or alternate, optionally negated. A push
button moves the game through setup, calibration, a tutorial, play and pause.

It covers three pieces of logic:

- **Button state machine** (`Button`): the button release handler is a pure
  transition on the machine state (game state, tutorial stage, print flag).
  The initial state set at start-up and the disconnection event are part of
  the same model. The lemmas cover the setup chain, the seven-stage tutorial
  walk, play/pause toggling, the states a press ignores, and reachability
  from start-up.
- **Instruction encoding and classification** (`Flappy`): `show_lights`
  turns two `rand()` draws into LED levels and a code `not_led * 10 + instr_led`.
  `read_input` judges one distance reading against a code. `main_game` does
  nothing unless the game is running.
- **Score bookkeeping** (`Score`): the game service's two `uint8_t`
  counters, with 8-bit wrap-around on increment and a running maximum for
  the high score.

The enums and constants of `not.hpp` live in `GameStates`, and `Wrappers`
holds an `Option` type.

Where the comment and the code disagree, the model follows the code. The
comment in `flappy.cpp` says that code 0 means far and code 1 means near.
But `read_input` applies the near test to codes 0 and 11 and the far test to
codes 1 and 10. `Flappy.ReadInput` models the code as written.

Three further facts about the code shape the model:
- Readings are judged against `near_dist + 50` and `far_dist - 50`.
- Codes 2 and 12 never accept a reading.
- No button press or disconnection leaves `GAME_ENDED`; only the start-up assignment sets `GAME_INITIALIZED`.

## Model

| member | source | states |
|---|---|---|
| GameStates.GameStateOrdinal | not.hpp:38-51 | each game state has an enum value below 12, and the declaration order lists it at that value |
| GameStates.TutorialIndex | not.hpp:58-66 | each tutorial stage has an enum value below 7, and the tutorial order lists it at that value |
| GameStates.GameStatesEnumerated | not.hpp:38-51 | there are exactly 12 game states, every state is among them, and they are all distinct |
| GameStates.TutorialIsLinear | not.hpp:58-66 | the tutorial is a linear order of 7 distinct stages from start to game end, and distinct stages have distinct indices |
| Button.NextTutorial | initialize.cpp:45-56 | every stage but the last is followed by the stage one index higher; the last stage is left as it is |
| Button.Press | initialize.cpp:33-66 | every press raises the print flag; outside the tutorial the tutorial stage never changes; inside it a press moves exactly one stage on and stays in the tutorial, except at the last stage, where the game starts and the stage stays at game end |
| Button.Disconnect | gap_handler.cpp:24-29 | a disconnection ends the game from any state and changes nothing else |
| Button.Initialize | initialize.cpp:135-136 | start-up sets the game to initialized and the tutorial to its first stage, leaving the print flag alone |
| Button.Presses | initialize.cpp:33-66 | after one or more presses the print flag is up; in an ignored state any number of presses changes neither state variable |
| Button.SetupChain | initialize.cpp:38-43 | initialized goes to near calibration, near-pending to far calibration and far-pending to the tutorial; each step moves to the next declared game state and leaves the tutorial stage alone |
| Button.PlayToggles | initialize.cpp:59-65 | a press pauses a running game, and resumes it from the paused-pending and the ended-pending states |
| Button.PressIgnoredExactly | initialize.cpp:38-65 | a press leaves game state and tutorial stage unchanged if and only if the game is in near calibration, far calibration, paused, ending or ended; a press always moves a waiting state on, and no press ever enters any of the four waiting states (the two calibration-pending states, paused-pending and ended-pending) |
| Button.TutorialWalk | initialize.cpp:44-56 | from the first tutorial stage, press k (for k below 7) leaves the game in the tutorial at the k-th stage of the tutorial order |
| Button.PressesAfterStart | initialize.cpp:57-60 | from the first tutorial stage, eight or more presses leave the game paused |
| Button.SevenPressesStartTheGame | initialize.cpp:44-60 | from the first tutorial stage, the game is running after k presses if and only if k is 7, with the tutorial at its last stage |
| Button.EndedIsAbsorbing | initialize.cpp:38-65 | once the game has ended, no sequence of presses and disconnections leaves the ended state or changes the tutorial stage |
| Button.ReachableShapeInvariant | initialize.cpp:38-65 | the set of states with the first tutorial stage and game initialized, near calibration or ended is closed under presses and disconnections |
| Button.ReachableFromStartup | initialize.cpp:135-136 | from start-up, button and disconnection events reach exactly initialized, near calibration and ended; the game never starts from these events alone, because no code in the model enters the calibration-pending states (`calibrate()` is declared without a definition) |
| Flappy.Encode | flappy.cpp:35 | every negation bit and kind encode to one of the six codes 0, 1, 2, 10, 11, 12 |
| Flappy.Decode | flappy.cpp:33-35 | a code decodes to a pair exactly when it is one of the six valid codes |
| Flappy.DecodeEncode | flappy.cpp:35 | decoding the code of a pair gives back that pair: the tens digit is the negation bit and the units digit is the kind |
| Flappy.EncodeDecode | flappy.cpp:35 | encoding the decoded pair of a valid code gives back that code |
| Flappy.EncodeInjective | flappy.cpp:35 | two different pairs never get the same code |
| Flappy.ShowLights | flappy.cpp:22-36 | the code returned is valid and decodes to the two draws taken mod 2 and mod 3; LED 1 is lit exactly when the negation bit is 1; LED 2 is lit exactly for kind 1, so kinds 0 and 2 both leave it dark |
| Flappy.ShowLightsCoversCodes | flappy.cpp:23-24 | every valid code is produced by some pair of random draws |
| Flappy.ReadInput | flappy.cpp:39-53 | codes 0 and 11 accept a reading if and only if it is at most the near threshold plus 50; codes 1 and 10 accept if and only if it is at least the far threshold minus 50; every other code, including 2 and 12, rejects every reading |
| Flappy.ReadInputFollowsLeds | flappy.cpp:22-53 | for a drawn instruction, a reading is accepted if and only if the kind is not 2 and it passes the near test when both LEDs show the same level, or the far test when they differ |
| Flappy.ReadInputMonotone | flappy.cpp:48-51 | an accepted near code stays accepted for any closer reading, and an accepted far code stays accepted for any farther reading |
| Flappy.DefaultBandsMeet | not.hpp:10-12 | default near (150) is below default far (250); both acceptance bounds are 200; every reading passes the near or the far code, and passes both exactly at 200 |
| Flappy.MainGame | flappy.cpp:55-71 | a tick does nothing unless the game is running; in a running game it shows a new instruction exactly when one is requested, and it judges the reading exactly when reading is on, against the instruction drawn in the same tick |
| Flappy.LoadTimeTicks | flappy.cpp:10-12 | with the load-time state values, a tick before start-up does nothing, and a tick of a running game draws an instruction and judges no reading |
| Score.NewService | game_info.cpp:5-7 | a new service starts with score 0 and high score 0 |
| Score.UpdateScore | game_info.cpp:36-43 | the score goes up by one, wrapping from 255 to 0; the high score is unchanged |
| Score.UpdateHighScore | game_info.cpp:45-52 | the high score becomes the larger of the score and the old high score; the score is unchanged |
| Score.ApplyAll | game_info.cpp:36-52 | no sequence of score and high-score updates ever lowers the high score |
| Score.UpdateScoreTimesWraps | game_info.cpp:38 | n score updates add n modulo 256 to the score and leave the high score alone |
| Score.ScoreWrapsAfter256 | game_info.cpp:38 | 256 score updates bring the score back to its starting value |
| Score.UpdateHighScoreIdempotent | game_info.cpp:47 | updating the high score twice gives the same result as updating it once |
| Score.HighScoreBoundsScore | game_info.cpp:38-47 | right after a high-score update the high score is at least the score; a score update can push the score above the high score |
| Score.RecordedRunBoundsScore | game_info.cpp:36-52 | after any sequence of updates that ends with a high-score update, the high score is at least the score and at least its starting value |

## Left out

- BLE: advertising, GATT service registration and the characteristic writes in `GameService` are left out. These are calls into the BLE library with no decision logic. Of the gap handler, only the disconnection's `game_state = GAME_ENDED` is modelled.
- The BLE init callback and the event-scheduling callback are left out. They set up the BLE stack and queue further BLE work; neither reads or writes the game state.
- NFC reading of the player name is left out. It is EEPROM and event-queue plumbing.
- Start-up wiring in `main` and `flappy_init` is left out. Only the two assignments that set the initial state are modelled.
- Concurrency is left out: the event queue, the 10 ms periodic call of `main_game`, and the handoff from button interrupt to queue.
- The distance sensor driver is left out. The distance is a parameter. A failed read leaves `distance` uninitialised before it is compared, so the model covers successful reads only.
- The LED hardware writes are left out. The model returns the written levels as values.
- `rand()` is left out. Its two results are parameters.
- Calibration and the tutorial screens are left out. `calibrate()` and `tutorial()` are only declared, so nothing in the model sets the calibration-pending, paused-pending or ended-pending states.
- Alternation counting and the hold-still spread check are left out. Neither is implemented.
- The shrinking response window is left out. `rate` and `counter` are declared but never updated.
- `reset_score` is left out. It is declared with no definition.
- `end_game` is left out. Its body is empty.
- The function prototypes in `not.hpp` disagree with the definitions (`show_lights` returns `int`, `read_input` takes the instruction). The model follows the definitions.
- Flappy.ReadInput: takes `near_dist` and `far_dist` as mathematical integers. Their declaration is not part of this model, so the signed/unsigned conversion in a comparison with the `uint32_t` distance is not modelled.
- Flappy.MainGame: does not assign a verdict when reading is on but no instruction was drawn in the same tick. The source then compares against an uninitialised local variable, so the model reports `Unspecified`.
