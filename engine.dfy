/**
 The game state of the application record and the operations that change
 it: submitting a name, starting a new game, playing a round, moving to the
 next round and showing the final results.

 `GameState` is the value of the four game fields; each operation is first
 a pure transition on that value, and the class `App` holds the fields and
 updates them in place, with each method proved to perform its transition.
 */
module Engine {
  import opened Wrappers
  import opened Rules
  import opened Text

  /** Size of the `player_name` buffer, terminator included. */
  const NAME_BUFFER_SIZE: int := 50
  /** Longest name the buffer keeps. */
  const MAX_NAME_LEN: int := NAME_BUFFER_SIZE - 1

  datatype GameState = GameState(round: int, playerScore: int, computerScore: int, playerName: string)

  /** Points handed out so far. */
  function Tally(g: GameState): int {
    g.playerScore + g.computerScore
  }

  /** What holds of the fields at every moment: scores are counts, the name fits its buffer. */
  predicate Inv(g: GameState) {
    g.round >= 0 && g.playerScore >= 0 && g.computerScore >= 0 && |g.playerName| <= MAX_NAME_LEN
  }

  /** What holds once a game is under way: at most one point per round played. */
  predicate InGame(g: GameState) {
    Inv(g) && g.round >= 1 && Tally(g) <= g.round - 1
  }

  /** The zero-filled record the application allocates at start-up. */
  const INITIAL: GameState := GameState(0, 0, 0, "")

  // ---------------------------------------------------------------------------
  // Transitions
  // ---------------------------------------------------------------------------

  /** `start_new_game`: back to round 1 with no points; the name is kept. */
  function NewGame(g: GameState): (r: GameState)
    ensures r.round == 1 && r.playerScore == 0 && r.computerScore == 0
    ensures r.playerName == g.playerName
  {
    g.(round := 1, playerScore := 0, computerScore := 0)
  }

  /**
   `process_round` on the game fields: the winner of the round gets one
   point, and the round counter always moves on by one, also past the last
   round.
   */
  function Play(g: GameState, user: int, computer: int): (r: GameState)
    ensures r.round == g.round + 1
    ensures r.playerName == g.playerName
    ensures RoundOutcome(user, computer) == Draw ==>
              r.playerScore == g.playerScore && r.computerScore == g.computerScore
    ensures RoundOutcome(user, computer) == PlayerWin ==>
              r.playerScore == g.playerScore + 1 && r.computerScore == g.computerScore
    ensures RoundOutcome(user, computer) == ComputerWin ==>
              r.playerScore == g.playerScore && r.computerScore == g.computerScore + 1
  {
    match RoundOutcome(user, computer)
    case Draw => g.(round := g.round + 1)
    case PlayerWin => g.(round := g.round + 1, playerScore := g.playerScore + 1)
    case ComputerWin => g.(round := g.round + 1, computerScore := g.computerScore + 1)
  }

  /** `g_strlcpy` into the name buffer: the longest prefix that leaves room for the terminator. */
  function CopyName(name: string): (stored: string)
    ensures |stored| <= MAX_NAME_LEN && |stored| <= |name|
    ensures stored == name[..|stored|]
    ensures |stored| == if |name| <= MAX_NAME_LEN then |name| else MAX_NAME_LEN
  {
    if |name| <= MAX_NAME_LEN then name else name[..MAX_NAME_LEN]
  }

  /** Copying an already stored name changes nothing. */
  lemma CopyNameIdempotent(name: string)
    ensures CopyName(CopyName(name)) == CopyName(name)
  {
  }

  /**
   `on_start_clicked` accepts any entry text that exists and is not empty:
   only a NULL text and the empty string are refused, whatever else the
   text holds.
   */
  function NameAccepted(name: Option<string>): (accepted: bool)
    ensures accepted <==> name != None && name != Some("")
  {
    name.Some? && |name.value| > 0
  }

  /** `on_start_clicked` on the game fields. */
  function SubmitName(g: GameState, name: Option<string>): (r: GameState)
    ensures !NameAccepted(name) ==> r == g
    ensures NameAccepted(name) ==>
              r.round == 1 && r.playerScore == 0 && r.computerScore == 0 &&
              |r.playerName| == (if |name.value| <= MAX_NAME_LEN then |name.value| else MAX_NAME_LEN) &&
              r.playerName == name.value[..|r.playerName|]
  {
    if NameAccepted(name) then NewGame(g.(playerName := CopyName(name.value))) else g
  }

  /** A sequence of rounds, each a player's choice and the computer's draw. */
  datatype Move = Move(user: int, computer: int)

  function PlayAll(g: GameState, moves: seq<Move>): GameState
    decreases |moves|
  {
    if moves == [] then g else PlayAll(Play(g, moves[0].user, moves[0].computer), moves[1..])
  }

  /** Number of rounds in `moves` that were not drawn. */
  function Decisive(moves: seq<Move>): (n: nat)
    ensures n <= |moves|
    decreases |moves|
  {
    if moves == [] then 0
    else (if moves[0].user == moves[0].computer then 0 else 1) + Decisive(moves[1..])
  }

  // ---------------------------------------------------------------------------
  // Properties of the transitions
  // ---------------------------------------------------------------------------

  /** A round hands out at most one point, and only to one side. */
  lemma PlayTally(g: GameState, user: int, computer: int)
    ensures var r := Play(g, user, computer);
            Tally(r) == Tally(g) + (if user == computer then 0 else 1) &&
            (r.playerScore == g.playerScore || r.computerScore == g.computerScore)
  {
  }

  /** Every transition keeps `Inv`; the ones a running game uses keep `InGame`. */
  lemma TransitionsKeepInvariants(g: GameState, user: int, computer: int, name: Option<string>)
    ensures Inv(g) ==> Inv(NewGame(g)) && InGame(NewGame(g))
    ensures Inv(g) ==> Inv(Play(g, user, computer))
    ensures InGame(g) ==> InGame(Play(g, user, computer))
    ensures Inv(g) ==> Inv(SubmitName(g, name))
    ensures InGame(g) ==> InGame(SubmitName(g, name))
  {
    PlayTally(g, user, computer);
  }

  /**
   Each round played moves the counter by one, and the points handed out
   are exactly the rounds that were not drawn; the name does not change.
   */
  lemma {:induction false} PlayAllCounts(g: GameState, moves: seq<Move>)
    ensures var r := PlayAll(g, moves);
            r.round == g.round + |moves| && Tally(r) == Tally(g) + Decisive(moves) &&
            r.playerName == g.playerName
    decreases |moves|
  {
    if moves != [] {
      var g' := Play(g, moves[0].user, moves[0].computer);
      PlayTally(g, moves[0].user, moves[0].computer);
      PlayAllCounts(g', moves[1..]);
    }
  }

  /**
   From a new game, after k <= 3 rounds the counter reads k + 1 and at most
   k points were handed out; the header switches to the calculating message
   exactly after the third round.
   */
  lemma GameFromNewGame(g: GameState, moves: seq<Move>)
    requires |moves| <= TOTAL_ROUNDS
    ensures var r := PlayAll(NewGame(g), moves);
            r.round == |moves| + 1 && Tally(r) <= |moves| &&
            r.playerName == g.playerName &&
            (RoundDisplay(r.round) == CALCULATING_TEXT <==> |moves| == TOTAL_ROUNDS)
  {
    PlayAllCounts(NewGame(g), moves);
  }

  lemma {:induction false} NoDrawsAllDecisive(moves: seq<Move>)
    requires forall i :: 0 <= i < |moves| ==> moves[i].user != moves[i].computer
    ensures Decisive(moves) == |moves|
    decreases |moves|
  {
    if moves != [] {
      assert moves[0].user != moves[0].computer;
      NoDrawsAllDecisive(moves[1..]);
    }
  }

  /** Three rounds without a draw always produce a winner. */
  lemma FullGameWithoutDrawHasWinner(g: GameState, moves: seq<Move>)
    requires |moves| == TOTAL_ROUNDS
    requires forall i :: 0 <= i < |moves| ==> moves[i].user != moves[i].computer
    ensures var r := PlayAll(NewGame(g), moves);
            FinalVerdict(r.playerScore, r.computerScore) != DrawGame
  {
    PlayAllCounts(NewGame(g), moves);
    NoDrawsAllDecisive(moves);
    var r := PlayAll(NewGame(g), moves);
    OddTotalHasWinner(r.playerScore, r.computerScore);
  }

  // ---------------------------------------------------------------------------
  // The application record
  // ---------------------------------------------------------------------------

  /** The labels of the game screen as a new round starts: header, scores, feedback and result. */
  datatype GameScreen = GameScreen(roundLabel: string, scoreLine: string, feedback: string, resultLabel: string)

  /** What `process_round` shows after a round, and whether it scheduled the final screen. */
  datatype RoundReport = RoundReport(
    result: RoundResult,
    feedback: string,
    resultLabel: string,
    scoreLine: string,
    finalScheduled: bool)

  /** The game fields of the application record, updated in place by the callbacks. */
  class App {
    var currentRound: int
    var playerScore: int
    var computerScore: int
    var playerName: string

    function State(): GameState
      reads this
    {
      GameState(currentRound, playerScore, computerScore, playerName)
    }

    predicate Valid()
      reads this
    {
      Inv(State())
    }

    /** The record is allocated zero-filled. */
    constructor ()
      ensures Valid() && State() == INITIAL
    {
      currentRound := 0;
      playerScore := 0;
      computerScore := 0;
      playerName := "";
    }

    /** `start_new_game`: resets the counters and refreshes the four labels of the game screen. */
    method StartNewGame() returns (screen: GameScreen)
      requires Valid()
      modifies this
      ensures Valid()
      ensures State() == NewGame(old(State()))
      ensures screen == GameScreen(RoundDisplay(1), ScoreDisplay(playerName, 0, 0), MOVE_PROMPT, "")
    {
      currentRound := 1;
      playerScore := 0;
      computerScore := 0;
      screen := GameScreen(RoundDisplay(currentRound), ScoreDisplay(playerName, playerScore, computerScore),
                           MOVE_PROMPT, "");
    }

    /** `start_next_round_ui`: refreshes the four labels from the fields and changes no field. */
    method StartNextRoundUi() returns (screen: GameScreen)
      ensures screen == GameScreen(RoundDisplay(currentRound), ScoreDisplay(playerName, playerScore, computerScore),
                                   MOVE_PROMPT, "")
      ensures currentRound <= TOTAL_ROUNDS ==> screen.roundLabel != CALCULATING_TEXT
    {
      screen := GameScreen(RoundDisplay(currentRound), ScoreDisplay(playerName, playerScore, computerScore),
                           MOVE_PROMPT, "");
    }

    /**
     `process_round` with the computer's draw given: scores the round, then
     moves the counter on, and schedules the final screen once the last
     round has been played.
     */
    method ProcessRound(userChoice: int, computerChoice: int) returns (report: RoundReport)
      requires Valid()
      requires IsChoice(computerChoice)
      modifies this
      ensures Valid()
      ensures State() == Play(old(State()), userChoice, computerChoice)
      ensures report.result == RoundOutcome(userChoice, computerChoice)
      ensures report.feedback == FeedbackText(userChoice, computerChoice)
      ensures report.resultLabel == ResultText(report.result)
      ensures report.scoreLine == ScoreDisplay(playerName, playerScore, computerScore)
      ensures report.finalScheduled <==> old(currentRound) >= TOTAL_ROUNDS
    {
      var result: RoundResult;
      if userChoice == computerChoice {
        result := Draw;
      } else if (userChoice == CHOICE_ROCK && computerChoice == CHOICE_SCISSORS) ||
                (userChoice == CHOICE_PAPER && computerChoice == CHOICE_ROCK) ||
                (userChoice == CHOICE_SCISSORS && computerChoice == CHOICE_PAPER) {
        result := PlayerWin;
        playerScore := playerScore + 1;
      } else {
        result := ComputerWin;
        computerScore := computerScore + 1;
      }
      // The labels depend only on the choices and the scores, so they are
      // built after the counter moves on; the C code sets them before.
      var finalScheduled: bool;
      if currentRound < TOTAL_ROUNDS {
        currentRound := currentRound + 1;
        finalScheduled := false;
      } else {
        currentRound := currentRound + 1;
        finalScheduled := true;
      }
      assert State() == Play(old(State()), userChoice, computerChoice);
      report := RoundReport(result, FeedbackText(userChoice, computerChoice), ResultText(result),
                            ScoreDisplay(playerName, playerScore, computerScore), finalScheduled);
    }

    /**
     `on_start_clicked`: a missing or empty name is refused and nothing
     changes; otherwise the name is stored, cut to the buffer, and a new
     game starts, whose game-screen labels are returned.
     */
    method OnStartClicked(name: Option<string>) returns (accepted: bool, screen: Option<GameScreen>)
      requires Valid()
      modifies this
      ensures Valid()
      ensures State() == SubmitName(old(State()), name)
      ensures accepted <==> NameAccepted(name)
      ensures accepted <==> screen.Some?
      ensures accepted ==> screen.value == GameScreen(RoundDisplay(1), ScoreDisplay(playerName, 0, 0), MOVE_PROMPT, "")
    {
      if name.None? || |name.value| == 0 {
        accepted, screen := false, None;
        return;
      }
      playerName := CopyName(name.value);
      var shown := StartNewGame();
      accepted, screen := true, Some(shown);
    }

    /** `on_show_final_results`: the verdict and the two result texts; changes no field. */
    method OnShowFinalResults() returns (verdict: Verdict, outcomeLabel: string, scoreLabel: string)
      ensures verdict == FinalVerdict(playerScore, computerScore)
      ensures outcomeLabel == OutcomeText(verdict, playerName)
      ensures scoreLabel == FinalScoreText(playerScore, computerScore)
    {
      if playerScore > computerScore {
        verdict := Champion;
      } else if computerScore > playerScore {
        verdict := Defeat;
      } else {
        verdict := DrawGame;
      }
      outcomeLabel := OutcomeText(verdict, playerName);
      scoreLabel := FinalScoreText(playerScore, computerScore);
    }
  }

  /**
   A whole session driven through the record, with the computer's draws
   fixed: three rounds won, won and lost give a champion at 2 - 1.
   */
  method ExampleSession() {
    var app := new App();
    var ok, start := app.OnStartClicked(Some("Ava"));
    assert ok && start.Some? && app.State() == GameState(1, 0, 0, app.playerName);
    var report := app.ProcessRound(CHOICE_ROCK, CHOICE_SCISSORS);
    assert report.result == PlayerWin && !report.finalScheduled;
    assert app.State() == GameState(2, 1, 0, app.playerName);
    var screen := app.StartNextRoundUi();
    assert screen.roundLabel != CALCULATING_TEXT;
    report := app.ProcessRound(CHOICE_PAPER, CHOICE_ROCK);
    assert report.result == PlayerWin && !report.finalScheduled;
    assert app.State() == GameState(3, 2, 0, app.playerName);
    report := app.ProcessRound(CHOICE_SCISSORS, CHOICE_ROCK);
    assert report.result == ComputerWin && report.finalScheduled;
    assert app.State() == GameState(TOTAL_ROUNDS + 1, 2, 1, app.playerName);
    var verdict, _, _ := app.OnShowFinalResults();
    assert verdict == Champion;
  }
}
