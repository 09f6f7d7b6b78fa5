/** The score bookkeeping of the game service: a current score and an all-time
    high score, both 8-bit unsigned counters. Reporting the values to the
    phone is left out; only the counters are modelled. */
module Score {

  /** A `uint8_t`. */
  type Byte = b: int | 0 <= b < 256

  datatype GameService = GameService(score: Byte, highScore: Byte)

  /** The two counter operations. */
  datatype ScoreOp = UpdateScoreOp | UpdateHighScoreOp

  /** A freshly constructed service. */
  function NewService(): (s: GameService)
    ensures s.score == 0 && s.highScore == 0
  {
    GameService(0, 0)
  }

  /** A correct response: the score goes up by one, wrapping from 255 back to 0
      as an 8-bit counter does; the high score is untouched. */
  function UpdateScore(s: GameService): (r: GameService)
    ensures r.highScore == s.highScore
    ensures s.score < 255 ==> r.score == s.score + 1
    ensures s.score == 255 ==> r.score == 0
  {
    s.(score := (s.score + 1) % 256)
  }

  /** Records the current score as the high score if it beats it: the high
      score becomes the larger of the two, and the score is untouched. */
  function UpdateHighScore(s: GameService): (r: GameService)
    ensures r.score == s.score
    ensures r.highScore >= s.score && r.highScore >= s.highScore
    ensures r.highScore == s.score || r.highScore == s.highScore
  {
    if s.score > s.highScore then s.(highScore := s.score) else s
  }

  function Apply(s: GameService, op: ScoreOp): GameService {
    match op
    case UpdateScoreOp => UpdateScore(s)
    case UpdateHighScoreOp => UpdateHighScore(s)
  }

  /** The service after the operations `ops`, in order. The high score never
      decreases, whatever the operations. */
  function ApplyAll(s: GameService, ops: seq<ScoreOp>): (r: GameService)
    ensures r.highScore >= s.highScore
    decreases |ops|
  {
    if ops == [] then s else ApplyAll(Apply(s, ops[0]), ops[1..])
  }

  /** The service after `n` correct responses in a row. */
  function UpdateScoreTimes(s: GameService, n: nat): GameService {
    if n == 0 then s else UpdateScore(UpdateScoreTimes(s, n - 1))
  }

  /** `n` correct responses advance the score by `n` modulo 256 and leave the
      high score alone. */
  lemma {:induction false} UpdateScoreTimesWraps(s: GameService, n: nat)
    ensures UpdateScoreTimes(s, n).score == (s.score + n) % 256
    ensures UpdateScoreTimes(s, n).highScore == s.highScore
  {
    if n > 0 {
      UpdateScoreTimesWraps(s, n - 1);
    }
  }

  /** After 256 correct responses the score is back where it was. */
  lemma ScoreWrapsAfter256(s: GameService)
    ensures UpdateScoreTimes(s, 256).score == s.score
  {
    UpdateScoreTimesWraps(s, 256);
  }

  /** Recording the high score twice is the same as recording it once. */
  lemma UpdateHighScoreIdempotent(s: GameService)
    ensures UpdateHighScore(UpdateHighScore(s)) == UpdateHighScore(s)
  {
  }

  /** The high score is at least the score right after it is recorded, and
      incrementing the score can break that until the next recording. */
  lemma HighScoreBoundsScore(s: GameService)
    ensures UpdateHighScore(s).highScore >= UpdateHighScore(s).score
    ensures s.score == s.highScore && s.score < 255 ==>
      UpdateScore(s).highScore < UpdateScore(s).score
  {
  }

  /** Any run of operations that ends with recording the high score leaves
      the high score at least the final score and at least its starting
      value. */
  lemma {:induction false} RecordedRunBoundsScore(s: GameService, ops: seq<ScoreOp>)
    requires ops != [] && ops[|ops| - 1] == UpdateHighScoreOp
    ensures ApplyAll(s, ops).highScore >= ApplyAll(s, ops).score
    ensures ApplyAll(s, ops).highScore >= s.highScore
    decreases |ops|
  {
    if |ops| > 1 {
      RecordedRunBoundsScore(Apply(s, ops[0]), ops[1..]);
    }
  }
}
