/**
 The decision rules of one Rock-Paper-Scissors game: the choice codes, the
 outcome of a round, the verdict over the final scores and the names shown
 for each choice. Choices are plain integers, as in the C program, where
 the buttons pass 1, 2 or 3 and the computer draws `rand() % 3 + 1`.
 */
module Rules {
  import opened Wrappers

  const CHOICE_ROCK: int := 1
  const CHOICE_PAPER: int := 2
  const CHOICE_SCISSORS: int := 3
  const TOTAL_ROUNDS: int := 3

  /** A valid choice code: Rock, Paper or Scissors. */
  predicate IsChoice(c: int) {
    CHOICE_ROCK <= c <= CHOICE_SCISSORS
  }

  /**
   Reference definition of cyclic dominance, independent of the pair table
   used by the program: on the codes 1..3, `a` beats `b` exactly when `a`
   is one step after `b` around the cycle Rock -> Paper -> Scissors -> Rock.
   */
  predicate Beats(a: int, b: int) {
    (a - b) % 3 == 1
  }

  /** The result of one round, from the player's point of view (0, 1, 2 in the C code). */
  datatype RoundResult = Draw | PlayerWin | ComputerWin

  /** The same round seen from the other side of the table. */
  function Mirror(r: RoundResult): RoundResult {
    match r
    case Draw => Draw
    case PlayerWin => ComputerWin
    case ComputerWin => PlayerWin
  }

  /**
   Resolves a round as `process_round` does: equal codes draw, the three
   winning pairs (1,3), (2,1), (3,2) go to the player, everything else to
   the computer.
   */
  function RoundOutcome(user: int, computer: int): (r: RoundResult)
    ensures r == Draw <==> user == computer
    ensures IsChoice(user) && IsChoice(computer) ==>
              (r == PlayerWin <==> Beats(user, computer)) &&
              (r == ComputerWin <==> Beats(computer, user))
    // A code outside 1..3 never matches a winning pair.
    ensures !(IsChoice(user) && IsChoice(computer)) && user != computer ==> r == ComputerWin
  {
    if user == computer then Draw
    else if (user == CHOICE_ROCK && computer == CHOICE_SCISSORS) ||
            (user == CHOICE_PAPER && computer == CHOICE_ROCK) ||
            (user == CHOICE_SCISSORS && computer == CHOICE_PAPER) then PlayerWin
    else ComputerWin
  }

  /** Swapping the two choices swaps the winner; a draw stays a draw. */
  lemma OutcomeSwap(user: int, computer: int)
    requires IsChoice(user) && IsChoice(computer)
    ensures RoundOutcome(computer, user) == Mirror(RoundOutcome(user, computer))
  {
  }

  /** Of two distinct choices exactly one beats the other; a choice never beats itself. */
  lemma BeatsIsCyclic(a: int, b: int)
    requires IsChoice(a) && IsChoice(b)
    ensures !Beats(a, a)
    ensures a != b ==> (Beats(a, b) <==> !Beats(b, a))
  {
  }

  /** The final verdict of `on_show_final_results`. */
  datatype Verdict = Champion | Defeat | DrawGame

  function MirrorVerdict(v: Verdict): Verdict {
    match v
    case Champion => Defeat
    case Defeat => Champion
    case DrawGame => DrawGame
  }

  /** Strictly more points wins; equal scores are a drawn game. */
  function FinalVerdict(playerScore: int, computerScore: int): (v: Verdict)
    ensures v == Champion <==> playerScore > computerScore
    ensures v == Defeat <==> computerScore > playerScore
    ensures v == DrawGame <==> playerScore == computerScore
  {
    if playerScore > computerScore then Champion
    else if computerScore > playerScore then Defeat
    else DrawGame
  }

  /** Exchanging the two scores exchanges the verdict. */
  lemma VerdictSwap(playerScore: int, computerScore: int)
    ensures FinalVerdict(computerScore, playerScore) == MirrorVerdict(FinalVerdict(playerScore, computerScore))
  {
  }

  /** When an odd number of points was handed out, the game cannot end drawn. */
  lemma OddTotalHasWinner(playerScore: int, computerScore: int)
    requires (playerScore + computerScore) % 2 == 1
    ensures FinalVerdict(playerScore, computerScore) != DrawGame
  {
  }

  /** The name shown for a choice; any code other than 1 or 2 reads as scissors. */
  function ChoiceName(c: int): (name: string)
    ensures name == "ROCK" || name == "PAPER" || name == "SCISSORS"
    ensures name == "ROCK" <==> c == CHOICE_ROCK
    ensures name == "PAPER" <==> c == CHOICE_PAPER
  {
    if c == CHOICE_ROCK then "ROCK"
    else if c == CHOICE_PAPER then "PAPER"
    else "SCISSORS"
  }

  /** Inverse of `ChoiceName` on the three names it produces. */
  function ChoiceOfName(name: string): Option<int> {
    if name == "ROCK" then Some(CHOICE_ROCK)
    else if name == "PAPER" then Some(CHOICE_PAPER)
    else if name == "SCISSORS" then Some(CHOICE_SCISSORS)
    else None
  }

  /** Every valid choice can be recovered from its name. */
  lemma ChoiceNameRoundTrip(c: int)
    requires IsChoice(c)
    ensures ChoiceOfName(ChoiceName(c)) == Some(c)
  {
  }
}
