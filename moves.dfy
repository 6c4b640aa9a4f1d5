/** Move codes shared by the classifier, the keyboard listener and the referee.
    The game stores moves as the numbers 1 (Rock), 2 (Paper) and 3 (Scissors),
    and `null` where no move is latched; `Option` stands for the latter. */
module Moves {

  datatype Option<+T> = None | Some(value: T)

  /** A move as the game stores it: 1 Rock, 2 Paper, 3 Scissors. */
  type MoveCode = m: int | 1 <= m <= 3 witness 1

  const Rock: MoveCode := 1
  const Paper: MoveCode := 2
  const Scissors: MoveCode := 3
}
