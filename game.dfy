/** The round and match state machine of the game: a countdown per round,
    a latched player move, a referee call at expiry, first to three points,
    disqualification for the foul gesture, and the two resets. */
module Game {
  import opened Moves
  import opened Fingers
  import opened Gestures
  import opened Referee

  /** Points that end a match. */
  const WinningScore: int := 3

  /** Length of a round's countdown, in milliseconds. */
  const CountdownMs: int := 3000

  // ---------------------------------------------------------------------
  // Scores, as values. `s[0]` is the AI's score, `s[1]` the player's.
  // ---------------------------------------------------------------------

  /** What the match keeps true of its scores: both in 0..3, never both 3. */
  predicate ScoresInvariant(s: seq<int>)
  {
    |s| == 2 && 0 <= s[0] <= WinningScore && 0 <= s[1] <= WinningScore &&
    !(s[0] == WinningScore && s[1] == WinningScore)
  }

  /** The match-over test made after every round. */
  predicate MatchDecided(s: seq<int>)
    requires |s| == 2
  {
    s[0] >= WinningScore || s[1] >= WinningScore
  }

  /** The referee's call for a round, or `None` when no move is latched. */
  function RoundResult(playerMove: Option<MoveCode>, aiMove: MoveCode): Option<Winner>
  {
    if playerMove.None? then None else Some(DetermineWinner(playerMove.value, aiMove))
  }

  /** The scores after one resolved round. */
  function AfterRound(s: seq<int>, playerMove: Option<MoveCode>, aiMove: MoveCode): (r: seq<int>)
    requires |s| == 2
    ensures |r| == 2 && r[0] >= s[0] && r[1] >= s[1]
    ensures r[0] + r[1] <= s[0] + s[1] + 1
  {
    match RoundResult(playerMove, aiMove)
    case Some(Player) => [s[0], s[1] + 1]
    case Some(Ai) => [s[0] + 1, s[1]]
    case _ => s
  }

  /** A round moves at most one point, to the side that won it: no move or
      equal moves change nothing, a player win raises only the player's
      score, an AI win only the AI's. */
  lemma RoundScoring(s: seq<int>, playerMove: Option<MoveCode>, aiMove: MoveCode)
    requires |s| == 2
    ensures |AfterRound(s, playerMove, aiMove)| == 2
    ensures AfterRound(s, playerMove, aiMove) == s <==>
      playerMove.None? || playerMove.value == aiMove
    ensures AfterRound(s, playerMove, aiMove) == [s[0], s[1] + 1] <==>
      playerMove.Some? && (playerMove.value, aiMove) in {(Rock, Scissors), (Paper, Rock), (Scissors, Paper)}
    ensures AfterRound(s, playerMove, aiMove) == [s[0] + 1, s[1]] <==>
      playerMove.Some? && (aiMove, playerMove.value) in {(Rock, Scissors), (Paper, Rock), (Scissors, Paper)}
  {
  }

  /** A round played before the match is decided keeps the score invariant:
      no score passes 3 and the two sides never both reach it. */
  lemma RoundKeepsScoresInvariant(s: seq<int>, playerMove: Option<MoveCode>, aiMove: MoveCode)
    requires ScoresInvariant(s) && !MatchDecided(s)
    ensures ScoresInvariant(AfterRound(s, playerMove, aiMove))
  {
  }

  /** Disqualification: the AI is given 3 points and the player's score is
      clamped to at most 2 (`Math.min`). */
  function Disqualify(s: seq<int>): (r: seq<int>)
    requires |s| == 2
    ensures |r| == 2 && r[0] == WinningScore && r[1] <= 2 && r[1] <= s[1]
    ensures r[1] == s[1] || r[1] == 2
    ensures s[1] >= 0 ==> ScoresInvariant(r) && MatchDecided(r)
  {
    [WinningScore, if s[1] < 2 then s[1] else 2]
  }

  /** The winner announced at match end: the player if their score reached
      3, the AI otherwise. Never a tie; on a decided match it is exactly
      the side holding 3 points. */
  function MatchWinner(s: seq<int>): (w: Winner)
    requires |s| == 2
    ensures w != Tie
    ensures ScoresInvariant(s) && MatchDecided(s) ==>
      (w == Player <==> s[1] == WinningScore) && (w == Ai <==> s[0] == WinningScore)
  {
    if s[1] >= WinningScore then Player else Ai
  }

  /** Whatever the scores were, a disqualified match is decided, keeps the
      score invariant, never raises the player's score, and the AI holds 3:
      the match-end rule of `MatchWinner` would pick the AI. (The source
      shows its own disqualification screen instead, which names no
      winner.) */
  lemma DisqualificationMeansAiWins(s: seq<int>)
    requires |s| == 2 && s[1] >= 0
    ensures ScoresInvariant(Disqualify(s)) && MatchDecided(Disqualify(s))
    ensures Disqualify(s)[1] <= s[1]
    ensures MatchWinner(Disqualify(s)) == Ai
  {
  }

  /** Three rounds won by the player from 0:0 end the match 0:3 for the
      player, with the AI's score untouched. */
  lemma ThreePlayerWinsTakeMatch(p1: MoveCode, a1: MoveCode, p2: MoveCode, a2: MoveCode,
                                 p3: MoveCode, a3: MoveCode)
    requires DetermineWinner(p1, a1) == Player
    requires DetermineWinner(p2, a2) == Player
    requires DetermineWinner(p3, a3) == Player
    ensures var s1 := AfterRound([0, 0], Some(p1), a1);
            var s2 := AfterRound(s1, Some(p2), a2);
            var s3 := AfterRound(s2, Some(p3), a3);
            !MatchDecided(s1) && !MatchDecided(s2) && MatchDecided(s3) &&
            s3 == [0, 3] && MatchWinner(s3) == Player
  {
  }

  // ---------------------------------------------------------------------
  // Keyboard fallback
  // ---------------------------------------------------------------------

  /** Lower-casing of one character (ASCII letters only). */
  function LowerChar(c: char): char
  {
    if 'A' <= c <= 'Z' then (c as int + 32) as char else c
  }

  function ToLower(s: string): string
  {
    seq(|s|, i requires 0 <= i < |s| => LowerChar(s[i]))
  }

  /** The move a key selects: r, p or s after lower-casing. Exactly the six
      keys r, R, p, P, s, S select a move; case does not matter. */
  function KeyMove(key: string): (m: Option<MoveCode>)
    ensures m == Some(Rock) <==> key == "r" || key == "R"
    ensures m == Some(Paper) <==> key == "p" || key == "P"
    ensures m == Some(Scissors) <==> key == "s" || key == "S"
    ensures m == None <==> key !in ["r", "R", "p", "P", "s", "S"]
  {
    var k := ToLower(key);
    if k == "r" then Some(Rock)
    else if k == "p" then Some(Paper)
    else if k == "s" then Some(Scissors)
    else None
  }

  // ---------------------------------------------------------------------
  // The game object
  // ---------------------------------------------------------------------

  class RockPaperScissorsGame {
    /** [AI, Player], updated in place during a match. */
    var scores: array<int>
    var stateResult: bool
    var startGame: bool
    var gameOver: bool
    /** Start of the current countdown, in milliseconds. */
    var initialTime: int
    var aiMove: Option<MoveCode>
    var playerMove: Option<MoveCode>

    /** The game's invariant: valid scores, `gameOver` exactly when some side
        has 3, and no countdown running once the match is over. */
    ghost predicate Valid()
      reads this, scores
    {
      scores.Length == 2 &&
      ScoresInvariant(scores[..]) &&
      (gameOver <==> MatchDecided(scores[..])) &&
      (CountingDown() ==> !gameOver)
    }

    /** A countdown is running: the timer polls and frames are classified. */
    predicate CountingDown()
      reads this
    {
      startGame && !stateResult
    }

    twostate predicate Unchanged()
      reads this, scores
    {
      scores == old(scores) && scores[..] == old(scores[..]) &&
      startGame == old(startGame) && stateResult == old(stateResult) &&
      gameOver == old(gameOver) && initialTime == old(initialTime) &&
      aiMove == old(aiMove) && playerMove == old(playerMove)
    }

    /** Everything but the latched player move is as it was. */
    twostate predicate OnlyLatchChanged()
      reads this, scores
    {
      scores == old(scores) && scores[..] == old(scores[..]) &&
      startGame == old(startGame) && stateResult == old(stateResult) &&
      gameOver == old(gameOver) && initialTime == old(initialTime) &&
      aiMove == old(aiMove)
    }

    /** The effect of a disqualification. */
    twostate predicate Disqualified()
      reads this, scores
    {
      scores == old(scores) && |old(scores[..])| == 2 &&
      scores[..] == Disqualify(old(scores[..])) &&
      gameOver && !startGame && stateResult &&
      initialTime == old(initialTime) && aiMove == old(aiMove) && playerMove == old(playerMove)
    }

    /** The effect of one frame of landmarks on the game. */
    twostate predicate GestureApplied(lm: seq<Point>)
      reads this, scores
    {
      if |lm| < LandmarkCount then Unchanged()
      else if old(CountingDown()) && IsMiddleFinger(FingerStates(lm)) then Disqualified()
      else playerMove == ClassifyMove(FingerStates(lm)) && OnlyLatchChanged()
    }

    /** The effect of resolving a round against the AI move `aiPick`. */
    twostate predicate RoundEvaluated(aiPick: MoveCode)
      reads this, scores
    {
      scores == old(scores) && |old(scores[..])| == 2 &&
      scores[..] == AfterRound(old(scores[..]), old(playerMove), aiPick) &&
      stateResult && aiMove == Some(aiPick) &&
      gameOver == (old(gameOver) || MatchDecided(scores[..])) &&
      startGame == old(startGame) && initialTime == old(initialTime) &&
      playerMove == old(playerMove)
    }

    /** The per-round fields reset at the start of a countdown at `now`. */
    twostate predicate RoundReset(now: int)
      reads this, scores
    {
      !stateResult && initialTime == now && playerMove == None && aiMove == None &&
      scores == old(scores) && scores[..] == old(scores[..]) && gameOver == old(gameOver)
    }

    /** The state after a restart or an end of game. */
    predicate Cleared()
      reads this, scores
    {
      scores[..] == [0, 0] && !gameOver && !startGame && !stateResult &&
      playerMove == None && aiMove == None
    }

    constructor ()
      ensures Valid() && fresh(scores)
      ensures Cleared() && initialTime == 0
    {
      scores := new int[] [0, 0];
      stateResult, startGame, gameOver := false, false, false;
      initialTime := 0;
      aiMove, playerMove := None, None;
    }

    /** The keyboard fallback: during a countdown r/p/s (any case) latch
        Rock/Paper/Scissors; any other key, or any key outside a countdown,
        changes nothing. */
    method KeyDown(key: string)
      requires Valid()
      modifies this
      ensures Valid() && OnlyLatchChanged()
      ensures playerMove ==
        if old(CountingDown()) && KeyMove(key).Some? then KeyMove(key) else old(playerMove)
    {
      if startGame && !stateResult {
        var selected := KeyMove(key);
        if selected.Some? {
          playerMove := selected;
        }
      }
    }

    /** Classify one frame. During a countdown the foul pattern disqualifies
        the player before anything is latched; otherwise the classification
        overwrites the latch, an unclear gesture clearing it. A frame with
        fewer than 21 landmarks changes nothing. */
    method DetectGesture(lm: seq<Point>)
      requires Valid()
      modifies this, scores
      ensures Valid() && GestureApplied(lm)
    {
      var fingers := GetFingersUp(lm);
      if fingers.None? {
        return;
      }
      var v := fingers.value;
      if startGame && !stateResult && IsMiddleFinger(v) {
        HandleUnsportsmanlikeConduct();
        return;
      }
      playerMove := ClassifyMove(v);
    }

    /** A detected hand reaches the classifier only during a countdown or
        in debug mode. */
    method OnHandFrame(lm: seq<Point>, debugMode: bool)
      requires Valid()
      modifies this, scores
      ensures Valid()
      ensures if old(CountingDown()) || debugMode then GestureApplied(lm) else Unchanged()
    {
      if (startGame && !stateResult) || debugMode {
        DetectGesture(lm);
      }
    }

    /** Disqualification for the foul gesture: the AI gets 3, the player at
        most 2, and the match is over. */
    method HandleUnsportsmanlikeConduct()
      requires Valid()
      modifies this, scores
      ensures Valid() && Disqualified()
    {
      scores[0] := 3;
      scores[1] := if scores[1] < 2 then scores[1] else 2;
      gameOver := true;
      startGame := false;
      stateResult := true;
      DisqualificationMeansAiWins(old(scores[..]));
    }

    /** Start a match. Refused once the match is over, and when no input
        method (hand tracking or keyboard) is available. */
    method StartRound(now: int, inputAvailable: bool)
      requires Valid()
      modifies this
      ensures Valid()
      ensures if !old(gameOver) && inputAvailable then RoundReset(now) && startGame else Unchanged()
    {
      if gameOver {
        return;
      }
      if !inputAvailable {
        return;
      }
      startGame := true;
      stateResult := false;
      initialTime := now;
      playerMove := None;
      aiMove := None;
    }

    /** One poll of the countdown at time `now`: the round resolves, against
        the AI move `aiPick`, once at least 3000 ms have passed since the
        countdown began. Outside a countdown nothing happens, so a round
        resolves once per countdown however often it is polled. */
    method Tick(now: int, aiPick: MoveCode)
      requires Valid()
      modifies this, scores
      ensures Valid()
      ensures if old(CountingDown()) && now - old(initialTime) >= CountdownMs
              then RoundEvaluated(aiPick) && !CountingDown()
              else Unchanged()
    {
      if !startGame || stateResult {
        return;
      }
      if now - initialTime >= CountdownMs {
        EvaluateRound(aiPick);
      }
    }

    /** Resolve the running round: close the latch, referee the latched move
        against `aiPick` and add the point; the match is over once a side has
        3 points. */
    method EvaluateRound(aiPick: MoveCode)
      requires Valid() && CountingDown()
      modifies this, scores
      ensures Valid() && RoundEvaluated(aiPick)
    {
      stateResult := true;
      aiMove := Some(aiPick);
      if playerMove.Some? {
        var result := DetermineWinner(playerMove.value, aiPick);
        if result == Player {
          scores[1] := scores[1] + 1;
        } else if result == Ai {
          scores[0] := scores[0] + 1;
        }
      }
      if scores[0] >= WinningScore || scores[1] >= WinningScore {
        gameOver := true;
      }
      RoundKeepsScoresInvariant(old(scores[..]), old(playerMove), aiPick);
    }

    /** The automatic continuation after a round that did not end the match:
        a new countdown from `now`, scores and `startGame` untouched. It is
        never due while a finished match still has `startGame` set. */
    method StartNextRound(now: int)
      requires Valid() && !(startGame && gameOver)
      modifies this
      ensures Valid() && RoundReset(now) && startGame == old(startGame)
    {
      stateResult := false;
      playerMove := None;
      aiMove := None;
      initialTime := now;
    }

    /** Start over: fresh 0:0 scores, all flags and moves cleared. Since the
        resulting state does not depend on the old one, a second restart
        changes nothing. */
    method RestartMatch()
      requires Valid()
      modifies this
      ensures Valid() && Cleared() && fresh(scores) && initialTime == old(initialTime)
    {
      gameOver := false;
      startGame := false;
      stateResult := false;
      scores := new int[] [0, 0];
      playerMove := None;
      aiMove := None;
    }

    /** Abandon the match: the same state as a restart. */
    method EndGame()
      requires Valid()
      modifies this
      ensures Valid() && Cleared() && fresh(scores) && initialTime == old(initialTime)
    {
      gameOver := false;
      startGame := false;
      stateResult := false;
      scores := new int[] [0, 0];
      playerMove := None;
      aiMove := None;
    }
  }

  /** One round on the keyboard: a move key pressed during the countdown
      is the move refereed when the countdown expires. */
  method PlayKeyboardRound(g: RockPaperScissorsGame, key: string, aiPick: MoveCode)
    requires g.Valid() && g.CountingDown() && KeyMove(key).Some?
    modifies g, g.scores
    ensures g.Valid() && g.scores == old(g.scores) && g.startGame && !g.CountingDown()
    ensures g.scores[..] == AfterRound(old(g.scores[..]), KeyMove(key), aiPick)
    ensures g.gameOver == MatchDecided(g.scores[..])
  {
    g.KeyDown(key);
    g.Tick(g.initialTime + CountdownMs, aiPick);
  }

  /** A whole match on the keyboard: the player wins three rounds in a row
      (Rock against Scissors, Paper against Rock, Scissors against Paper),
      the match ends 0:3 and the player is announced the winner. */
  method PlayerSweepsMatch() returns (winner: Winner, aiScore: int, playerScore: int, over: bool)
    ensures winner == Player && aiScore == 0 && playerScore == 3 && over
  {
    var g := new RockPaperScissorsGame();
    g.StartRound(0, true);
    PlayKeyboardRound(g, "R", Scissors);
    assert g.scores[..] == [0, 1];
    g.StartNextRound(6000);
    PlayKeyboardRound(g, "p", Rock);
    assert g.scores[..] == [0, 2];
    g.StartNextRound(12000);
    PlayKeyboardRound(g, "S", Paper);
    assert g.scores[..] == [0, 3];
    winner, aiScore, playerScore, over := MatchWinner(g.scores[..]), g.scores[0], g.scores[1], g.gameOver;
  }
}
