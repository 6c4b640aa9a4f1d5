# Gesture rock-paper-scissors referee: a Dafny model

This project models the game logic of `RockPaperScissorsGame` in `script.js`.
That logic has three parts:

- **Finger extraction and gesture classification** (`Fingers`, `Gestures`).
  The 21 landmarks of a detected hand become five up/down flags
  `[thumb, index, middle, ring, pinky]`. The flags are then classified in a
  fixed order: the foul pattern (middle finger up; index, ring and pinky down; thumb either way) is checked first,
  and only during a countdown. Then at least four fingers down is Rock (1),
  at least four up is Paper (2), index and middle up with ring and pinky down
  is Scissors (3), and anything else is no move.
- **The referee** (`Referee`). Rock beats Scissors, Paper beats Rock, and
  Scissors beats Paper. Equal moves are a tie.
- **The round and match state machine** (`Game`). The class
  `RockPaperScissorsGame` has the source's fields: the `scores` array
  `[AI, Player]`, which is updated in place, and the flags `startGame`,
  `stateResult` and `gameOver`. It also holds `initialTime`, the latched
  `playerMove` and `aiMove`. Its methods are the source's handlers:
  - starting a match and starting the next round;
  - one poll of the countdown timer;
  - resolving a round;
  - disqualifying the player;
  - restarting and ending;
  - the keyboard listener;
  - per-frame gesture detection.

  The invariant `Valid()` is kept by every method. It says:
  - both scores are in 0..3 and never both 3;
  - `gameOver` holds exactly when one side has 3;
  - no countdown is running once the match is over.

Time, randomness and the input devices are parameters:

- `Tick(now, aiPick)` stands for one `requestAnimationFrame` poll at
  `Date.now() == now`.
- `aiPick` in 1..3 stands for `Math.floor(Math.random() * 3) + 1`.
- `StartRound(now, inputAvailable)` receives as a boolean whether MediaPipe,
  TensorFlow or the keyboard is available.
- A frame of landmarks is a `seq<Point>` handed to `OnHandFrame`.

Landmark coordinates are `real`, because the source only ever compares them.
The thumb test compares two `Math.sqrt` distances. The model compares the
squared distances instead. `ThumbUpBySquareRoots` shows the modelled test
agrees with comparing the distances themselves.

Behaviour preserved as the code has it:

- The second reference joint for fingers 1..4 is `pipIds[i] - 3`. These are
  landmarks 3, 7, 11 and 15, not the knuckles of those fingers
  (`FingerStates`).
- A vector with only the thumb up is Rock (`ThumbOnlyIsRock`).
- An unclear gesture clears the latch to `null` (`None`).
- Outside a countdown the foul check is skipped. The foul pattern then
  classifies as Rock with the thumb down, or as no move with the thumb up
  (`MiddleFingerClassified`).
- A landmark list shorter than 21 makes `getFingersUp` read a missing
  landmark and throw before any field changes. `GetFingersUp` returns `None`
  for it, and `DetectGesture` then changes nothing.
- `detectGesture` itself latches in every phase. Only its callers restrict
  it to a countdown or debug mode (`OnHandFrame`).

## Model

| member | source | states |
|---|---|---|
| Fingers.GetFingersUp | script.js:1523-1572 | fails exactly when fewer than 21 landmarks are given; otherwise returns five flags, flag i being finger i's up test (thumb: tip farther from the wrist than joint 3; fingers 1..4: tip strictly above both reference joints) |
| Fingers.FingerStates | script.js:1523-1572 | the five flags spelled out by landmark: thumb up iff landmark 4 is farther from wrist 0 than landmark 3; index up iff 8 is above 6 and 3; middle 12 above 10 and 7; ring 16 above 14 and 11; pinky 20 above 18 and 15 |
| Fingers.SquaresOrderLikeLengths | script.js:1538-1547 | for non-negative lengths, comparing lengths and comparing their squares agree, so the squared-distance thumb test decides as the square-root one |
| Fingers.ThumbUpBySquareRoots | script.js:1538-1547 | given the two Euclidean distances from the wrist to landmarks 4 and 3, the modelled thumb test is up exactly when the first is larger, as the Math.sqrt comparison decides |
| Gestures.IsMiddleFinger | script.js:1412-1425 | the foul pattern holds exactly when index, middle, ring, pinky are down, up, down, down, whatever the thumb |
| Gestures.Count | script.js:1370-1376 | the filter count of up or down fingers is at most the vector length, and equals it exactly when every flag has that value |
| Gestures.CountSplit | script.js:1370-1376 | fingers up plus fingers down is the vector length |
| Gestures.ClassifyMove | script.js:1369-1384 | the branch chain gives Rock exactly when at most one finger is up, Paper exactly when four or five are up, Scissors exactly for index and middle up with ring and pinky down (either thumb), and no move exactly otherwise |
| Gestures.ScissorsPatternBelowThresholds | script.js:1369-1384 | the Scissors pattern has two or three fingers up, so neither majority branch takes it first |
| Gestures.ThumbOnlyIsRock | script.js:1369-1373 | a vector with only the thumb up classifies as Rock |
| Gestures.MiddleFingerClassified | script.js:1363-1384 | when the foul check is skipped, the foul pattern classifies as Rock with the thumb down and as no move with the thumb up |
| Referee.DetermineWinner | script.js:1735-1745 | tie exactly when the moves are equal; player exactly for (1,3), (2,1), (3,2); ai otherwise |
| Referee.SwapMovesSwapsWinner | script.js:1735-1745 | exchanging the two moves exchanges player and ai and keeps a tie |
| Referee.WinnerIsCyclic | script.js:1738-1742 | each move beats exactly the next one in the cycle 1, 3, 2: the player wins iff a == (p+1)%3+1, the AI iff p == (a+1)%3+1 |
| Game.AfterRound | script.js:1673-1690 | a round never lowers a score and adds at most one point in total |
| Game.RoundScoring | script.js:1673-1690 | a round with no latched move or equal moves leaves the scores unchanged; a player win adds one to the player's score only, an AI win one to the AI's score only |
| Game.RoundKeepsScoresInvariant | script.js:1673-1705 | a round resolved before the match is decided keeps both scores within 0..3 and never gives both sides 3 |
| Game.Disqualify | script.js:1435-1436 | the AI gets 3 and the player min(old, 2): at most 2, never more than before, and either unchanged or 2; from non-negative scores the result is a valid, decided match |
| Game.DisqualificationMeansAiWins | script.js:1435-1439 | after disqualification the AI has 3, the player min(old, 2), the match is decided, and the match-end rule of `showGameOver` would pick the AI (the source shows its own disqualification screen instead, which names no winner) |
| Game.MatchWinner | script.js:1751-1760 | the announced winner is never a tie; on a decided match it is the player iff the player has 3 and the AI iff the AI has 3 |
| Game.ThreePlayerWinsTakeMatch | script.js:1673-1705 | from 0:0, three player-won rounds leave the match undecided after one and two, decided after three at AI 0, player 3, with the player announced |
| Game.KeyMove | script.js:1063-1080 | exactly r/R selects Rock, p/P Paper, s/S Scissors; every other key selects nothing |
| Game.RockPaperScissorsGame.constructor | script.js:2-10 | scores 0:0, all three flags false, both moves null, initial time 0 |
| Game.RockPaperScissorsGame.KeyDown | script.js:1060-1083 | during a countdown a move key overwrites the latch; any other key, or any key outside a countdown, changes nothing; nothing else changes |
| Game.RockPaperScissorsGame.DetectGesture | script.js:1356-1409 | a short landmark list changes nothing; during a countdown the foul pattern disqualifies (latch untouched); otherwise the latch becomes the classification of the frame, an unclear one clearing it, and nothing else changes |
| Game.RockPaperScissorsGame.OnHandFrame | script.js:1246-1253 | a frame is classified only during a countdown or in debug mode; otherwise nothing changes |
| Game.RockPaperScissorsGame.HandleUnsportsmanlikeConduct | script.js:1428-1439 | scores become AI 3 and player min(old, 2) in the same array; gameOver and stateResult set, startGame cleared; the invariant holds |
| Game.RockPaperScissorsGame.StartRound | script.js:1574-1608 | refused (no change) when the match is over or no input method is available; otherwise starts a countdown at now with both moves cleared, scores untouched |
| Game.RockPaperScissorsGame.Tick | script.js:1628-1659 | resolves the round exactly when a countdown is running and at least 3000 ms have passed since it began, after which no countdown is running; otherwise changes nothing, so each countdown resolves once |
| Game.RockPaperScissorsGame.EvaluateRound | script.js:1661-1705 | closes the latch, records the AI move, updates the scores in place by the referee's call on the latched move, and sets gameOver exactly when a side has 3 |
| Game.RockPaperScissorsGame.StartNextRound | script.js:1717-1725 | starts a new countdown at now with both moves cleared; scores, startGame and gameOver untouched |
| Game.RockPaperScissorsGame.RestartMatch | script.js:1766-1772 | scores 0:0 in a new array, all flags false, both moves null, whatever the prior state (hence idempotent) |
| Game.RockPaperScissorsGame.EndGame | script.js:1786-1795 | the same reset as a restart, whatever the prior state (hence idempotent) |
| Game.PlayKeyboardRound | script.js:1061-1081 | a move key pressed during a countdown is the move refereed when it expires; the scores change by exactly that round |
| Game.PlayerSweepsMatch | script.js:1747-1761 | a keyboard match won Rock/Scissors, Paper/Rock, Scissors/Paper ends at AI 0, player 3, over, with the player announced |

## Left out

- Sound synthesis (`initAudioSystem`, `playSound`, `playChord`, `toggleSound`) is not modelled: it is Web Audio output with floating-point frequencies.
- DOM updates, modals, status text, button enabling and the loading indicator are not modelled. Only the handlers' effects on game fields are.
- Camera acquisition, MediaPipe and TensorFlow loading and their detection loops are not modelled. They are foreign calls. A delivered hand is an `OnHandFrame` call, and the source's conversion of normalised coordinates to pixels is not modelled.
- The retry `loadHandPoseModel()` that `startRound` issues when no input method is available is not modelled. It is a foreign, asynchronous load; only the refusal is.
- Canvas drawing, the debug helpers, the motion and brightness pixel loops and the diagnostic hand tests are not modelled. They are rendering and diagnostics over floating-point pixels.
- The random choice of message in the disqualification modal is not modelled, because it is presentation only.
- The `rock_paper_scissors.py` capture loop is not modelled. It has no game logic.
- The unused `timer` field is not modelled.
- Game.RockPaperScissorsGame.StartNextRound: its requires `!(startGame && gameOver)` is a timing fact, not a check in the code. The continuation is scheduled 3 s after a round that did not end the match. No later round can resolve within those 3 s, and a disqualification clears `startGame`. The model has no clock for pending timeouts, so this is taken as the precondition.
- `restartMatch` and `endGame` do not cancel a pending continuation. The model does not claim they do: `StartNextRound` may still be called after either.
- `restartMatch` and `endGame` also leave the pending match-end announcements in place: `showGameOver` (due 2.5 s after a deciding round) and `showUnsportsmanlikeGameOver` (due 2 s after a disqualification). Fired after a reset, `showGameOver` reads the reset scores 0:0 and announces an AI win at 0 - 0. The model has no announcement events, so neither method promises anything about them.
- `requestAnimationFrame` and `setTimeout` scheduling is not modelled. Polls and continuations are explicit method calls.
- Game.KeyMove: lower-cases ASCII letters only, while `toLowerCase` covers all of Unicode. No other character lower-cases to `r`, `p` or `s`, so which keys select a move is the same.
- Fingers.GetFingersUp: the thumb test uses exact real arithmetic. The source uses floating-point `Math.pow` and `Math.sqrt`, which may round differently when the two distances are nearly equal.
