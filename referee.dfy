/** The round referee: Rock beats Scissors, Paper beats Rock, Scissors
    beats Paper. */
module Referee {
  import opened Moves

  /** 'tie', 'player' or 'ai'. */
  datatype Winner = Tie | Player | Ai

  /** For each move, the move it beats. */
  const WinConditions: map<MoveCode, MoveCode> := map[Rock := Scissors, Paper := Rock, Scissors := Paper]

  function DetermineWinner(playerMove: MoveCode, aiMove: MoveCode): (w: Winner)
    ensures w == Tie <==> playerMove == aiMove
    ensures w == Player <==>
      (playerMove, aiMove) in {(Rock, Scissors), (Paper, Rock), (Scissors, Paper)}
  {
    if playerMove == aiMove then Tie
    else if WinConditions[playerMove] == aiMove then Player
    else Ai
  }

  /** The same round seen from the other side. */
  function Opponent(w: Winner): Winner
  {
    match w
    case Tie => Tie
    case Player => Ai
    case Ai => Player
  }

  /** Swapping the two moves swaps the winner. */
  lemma SwapMovesSwapsWinner(p: MoveCode, a: MoveCode)
    ensures DetermineWinner(a, p) == Opponent(DetermineWinner(p, a))
  {
  }

  /** The rule is cyclic: each move beats exactly the move one step below it
      in 1 -> 3 -> 2 -> 1. */
  lemma WinnerIsCyclic(p: MoveCode, a: MoveCode)
    ensures DetermineWinner(p, a) == Player <==> a == (p + 1) % 3 + 1
    ensures DetermineWinner(p, a) == Ai <==> p == (a + 1) % 3 + 1
  {
  }
}
