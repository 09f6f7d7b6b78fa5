/** One tick of the main game: drawing an instruction and showing it on the two
    LEDs, and judging one distance reading against the instruction's code.
    The two `rand()` draws, the sensor reading and the near/far thresholds
    are parameters, which makes every operation here pure. */
module Flappy {
  import opened Wrappers
  import opened GameStates

  /** A distance reported by the sensor, in millimetres (a `uint32_t`). */
  type Distance = d: int | 0 <= d < 0x1_0000_0000

  /** The negation LED draw: 0 or 1. */
  type NotBit = b: int | 0 <= b < 2

  /** The instruction kind draw: 0, 1 or 2. */
  type Kind = k: int | 0 <= k < 3

  /** The instruction codes the game can draw. */
  const ValidCodes: set<int> := {0, 1, 2, 10, 11, 12}

  /** The levels written to the two LEDs and the instruction code returned. */
  datatype Lights = Lights(led1: int, led2: int, code: int)

  /** What one tick did with the sensor reading: nothing, a verdict, or a
      verdict with no defined value (`Unspecified`), when the reading was
      judged against an instruction variable that this tick never assigned. */
  datatype Judgement =
    | NotRead
    | Read(accepted: bool)
    | Unspecified

  /** The observable effect of one tick. */
  datatype Tick = Tick(shown: Option<Lights>, judgement: Judgement)

  /** The state variables' values at load time, before start-up runs. */
  const LoadInstructionState: InstructionState := NewInstructionOn
  const LoadReadInputState: ReadInputState := ReadInputOff
  const LoadGameState: GameState := GameEnded

  /** The instruction code: the negation bit in the tens digit, the kind in
      the units digit. */
  function Encode(notLed: NotBit, instrLed: Kind): (code: int)
    ensures code in ValidCodes
  {
    notLed * 10 + instrLed
  }

  /** The inverse of `Encode`; codes that are never drawn have no meaning. */
  function Decode(code: int): (r: Option<(NotBit, Kind)>)
    ensures r.Some? <==> code in ValidCodes
  {
    if code in ValidCodes then Some((code / 10, code % 10)) else None
  }

  /** Decoding an encoded pair gives the pair back. */
  lemma DecodeEncode(notLed: NotBit, instrLed: Kind)
    ensures Decode(Encode(notLed, instrLed)) == Some((notLed, instrLed))
  {
  }

  /** Encoding a decoded code gives the code back, so the encoding is a
      bijection between the six pairs and the six valid codes. */
  lemma EncodeDecode(code: int)
    requires code in ValidCodes
    ensures Decode(code).Some? && Encode(Decode(code).value.0, Decode(code).value.1) == code
  {
  }

  /** Two different pairs never share a code. */
  lemma EncodeInjective(a: NotBit, b: Kind, a': NotBit, b': Kind)
    requires Encode(a, b) == Encode(a', b')
    ensures a == a' && b == b'
  {
  }

  /** Draws an instruction from two `rand()` results, lights the LEDs for it
      and returns its code. LED 1 shows the negation bit; LED 2 is lit only for
      kind 1, so kinds 0 and 2 look the same on it. */
  function ShowLights(randA: nat, randB: nat): (r: Lights)
    ensures r.code in ValidCodes
    ensures Decode(r.code) == Some((randA % 2, randB % 3))
    ensures r.led1 == r.code / 10
    ensures r.led2 == (if r.code % 10 == 1 then 1 else 0)
  {
    var notLed := randA % 2;
    var instrLed := randB % 3;
    var led1 := if notLed == 1 then 1 else 0;
    var led2 := if instrLed == 1 then 1 else 0;
    Lights(led1, led2, Encode(notLed, instrLed))
  }

  /** Every valid code is drawn by some pair of `rand()` results. */
  lemma ShowLightsCoversCodes(code: int)
    requires code in ValidCodes
    ensures exists randA: nat, randB: nat :: ShowLights(randA, randB).code == code
  {
    var randA: nat, randB: nat := code / 10, code % 10;
    assert Encode(randA, randB) == code;
    assert ShowLights(randA, randB).code == code;
  }

  /** The near acceptance test: the hand is no farther than the near
      threshold plus the margin. */
  predicate NearOk(distance: int, nearDist: int) {
    distance <= nearDist + ErrValue
  }

  /** The far acceptance test: the hand is no closer than the far threshold
      minus the margin. */
  predicate FarOk(distance: int, farDist: int) {
    distance >= farDist - ErrValue
  }

  /** Whether one successful distance reading satisfies the instruction code.
      Codes 0 and 11 use the near test, codes 1 and 10 the far test; the
      alternate and stay-still codes, and any other value, are never met. */
  function ReadInput(instruction: int, distance: Distance, nearDist: int, farDist: int): (ok: bool)
    ensures instruction in {0, 11} ==> (ok <==> NearOk(distance, nearDist))
    ensures instruction in {1, 10} ==> (ok <==> FarOk(distance, farDist))
    ensures ok ==> instruction in {0, 1, 10, 11}
  {
    if (instruction == 0 || instruction == 11) && distance <= nearDist + ErrValue then true
    else if (instruction == 1 || instruction == 10) && distance >= farDist - ErrValue then true
    else false
  }

  /** The judgement seen from the LEDs: an instruction that is not of kind 2
      asks for the near test exactly when both LEDs show the same level, and
      for the far test when they differ. */
  lemma ReadInputFollowsLeds(randA: nat, randB: nat, distance: Distance, nearDist: int, farDist: int)
    ensures var r := ShowLights(randA, randB);
      ReadInput(r.code, distance, nearDist, farDist) <==>
        r.code % 10 != 2 &&
        (if r.led1 == r.led2 then NearOk(distance, nearDist) else FarOk(distance, farDist))
  {
  }

  /** A near instruction still holds when the hand comes closer, and a far
      instruction still holds when the hand moves farther away. */
  lemma ReadInputMonotone(instruction: int, d: Distance, d': Distance, nearDist: int, farDist: int)
    requires ReadInput(instruction, d, nearDist, farDist)
    ensures instruction in {0, 11} && d' <= d ==> ReadInput(instruction, d', nearDist, farDist)
    ensures instruction in {1, 10} && d' >= d ==> ReadInput(instruction, d', nearDist, farDist)
  {
  }

  /** With the default thresholds the near and far bands cover every reading
      and overlap only at 200 mm. */
  lemma DefaultBandsMeet(d: Distance)
    ensures DefaultNearDist < DefaultFarDist
    ensures DefaultNearDist + ErrValue == DefaultFarDist - ErrValue
    ensures ReadInput(0, d, DefaultNearDist, DefaultFarDist) || ReadInput(1, d, DefaultNearDist, DefaultFarDist)
    ensures ReadInput(0, d, DefaultNearDist, DefaultFarDist) && ReadInput(1, d, DefaultNearDist, DefaultFarDist)
      <==> d == 200
  {
  }

  /** One tick of the main game loop. Nothing happens outside a running game;
      during one, a fresh instruction is drawn when one is requested and the
      reading is judged when reading is on. */
  function MainGame(game: GameState, instr: InstructionState, reading: ReadInputState,
                    randA: nat, randB: nat, distance: Distance, nearDist: int, farDist: int): (t: Tick)
    ensures game != GameStarted ==> t == Tick(None, NotRead)
    ensures game == GameStarted ==> (t.shown.Some? <==> instr == NewInstructionOn)
    ensures game == GameStarted ==> (t.judgement != NotRead <==> reading == ReadInputOn)
    ensures t.shown.Some? ==> t.shown.value == ShowLights(randA, randB)
    ensures t.judgement.Read? ==>
      t.shown.Some? && t.judgement.accepted == ReadInput(t.shown.value.code, distance, nearDist, farDist)
    ensures t.judgement == Unspecified ==> t.shown.None?
  {
    if game == GameStarted then
      var shown := if instr == NewInstructionOn then Some(ShowLights(randA, randB)) else None;
      var judgement :=
        if reading != ReadInputOn then NotRead
        else if shown.Some? then Read(ReadInput(shown.value.code, distance, nearDist, farDist))
        else Unspecified;
      Tick(shown, judgement)
    else
      Tick(None, NotRead)
  }

  /** With the instruction and reading states at their load-time values, a
      tick before start-up does nothing, and a tick of a running game draws a
      new instruction and judges no reading. */
  lemma LoadTimeTicks(randA: nat, randB: nat, distance: Distance, nearDist: int, farDist: int)
    ensures MainGame(LoadGameState, LoadInstructionState, LoadReadInputState,
                     randA, randB, distance, nearDist, farDist) == Tick(None, NotRead)
    ensures MainGame(GameStarted, LoadInstructionState, LoadReadInputState,
                     randA, randB, distance, nearDist, farDist)
      == Tick(Some(ShowLights(randA, randB)), NotRead)
  {
  }
}
