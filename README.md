# Rock-Paper-Scissors game engine (Dafny model)

A model of the game logic of a GTK4 Rock-Paper-Scissors game written in C
(`main.c`). A player enters a name and plays three rounds against a
computer that draws Rock, Paper or Scissors at random. Then a result
screen shows who won. All game state lives in four fields of the
application record `AppData`: `current_round`, `player_score`,
`computer_score` and `player_name`. The GTK callbacks update these fields
in place.

The model has four modules:

- `Wrappers`: an `Option` type. It models the entry text that may come back
  as a NULL pointer.
- `Rules`: the choice codes 1..3 and `TOTAL_ROUNDS = 3`. It holds the outcome
  of a round, the verdict over the final scores and the choice names.
  `Beats`, defined as `(a - b) % 3 == 1`, is a second definition of cyclic
  dominance. It does not depend on the program's table of winning pairs,
  and the outcome function is proved to agree with it.
- `Text`: the label texts. This includes the `%d` formatting they use,
  modelled as `IntToString` together with its inverse `IntValue`. Lemmas
  show that every number and choice a label shows can be read back from it.
- `Engine`: `GameState` is the value of the four game fields. Each callback
  is first a pure transition on that value: `NewGame`, `Play` and
  `SubmitName`. Lemmas cover sequences of rounds. The class `App` holds the
  four fields as mutable fields. Each of its methods is proved to perform
  its transition (`State() == Play(old(State()), …)`). The methods also
  return the label texts the callback shows (`OnStartClicked` returns the
  game screen of the new game it starts).

The computer's `rand() % 3 + 1` draw is a parameter of `ProcessRound`, and
its range 1..3 is a precondition. The player's choice has no precondition.
`process_round` handles any code: a code outside 1..3 that differs from the
computer's loses the round and is shown as "SCISSORS".

Behaviour of `main.c` worth noting:

- `on_start_clicked` refuses only a NULL or empty name (main.c:223). A name
  made only of spaces is accepted (`Engine.NameAccepted`).
- `g_strlcpy` into the 50-byte `player_name` buffer cuts a name to 49
  characters (main.c:230).
- The round counter is increased in `process_round` (main.c:203-212), not
  when "next round" is clicked. After the third round it holds 4, and
  `RoundDisplay(4)` would be "Calculating Results...". No callback refreshes
  the header at round 4, though: the header is set only through
  `update_round_display` (main.c:76), which only `start_new_game` and
  `start_next_round_ui` call (main.c:132, 152). `process_round` refreshes
  only the score line (main.c:200), `on_show_final_results` does not touch
  the header (main.c:81-114), and the next-round button stays hidden after
  the last round (main.c:156, 207-211). So the header keeps showing
  "Round 3: Fight!" until the result screen appears, although the comment
  at main.c:208 announces a calculating state.
- `process_round` does not check the round counter. The GUI hides the
  choice buttons after a round (main.c:201), but the model does not model
  that hiding. What it keeps is the missing check: `Play` always adds one
  to the counter. The lemmas bound the counter for games of at most three
  rounds.
- After k rounds the scores add up to at most k, not exactly k, because a
  drawn round gives no point (`PlayAllCounts`).
- The application record starts zero-filled (main.c:509), so the round
  counter is 0 before the first name is accepted (`App.constructor`).

## Model

| member | source | states |
|---|---|---|
| `Rules.RoundOutcome` | main.c:164-176 | A draw happens exactly when the two codes are equal. On codes 1..3 the player wins exactly when `Beats(user, computer)` and the computer wins exactly when `Beats(computer, user)`. A code outside 1..3 that differs from the other code gives the computer the round. |
| `Rules.OutcomeSwap` | main.c:167-176 | On codes 1..3, swapping the player's and the computer's choice swaps the winner, and a draw stays a draw. |
| `Rules.BeatsIsCyclic` | main.c:167-170 | No choice beats itself. Of two different choices exactly one beats the other. |
| `Rules.FinalVerdict` | main.c:92-101 | The verdict is champion exactly when the player has more points and defeat exactly when the computer has more points. Otherwise it is a drawn game, so exactly one verdict holds. |
| `Rules.VerdictSwap` | main.c:92-101 | Exchanging the two scores exchanges champion and defeat. A drawn game stays drawn. |
| `Rules.ChoiceName` | main.c:162-163 | Code 1 is named "ROCK" and code 2 "PAPER". Every other code is "SCISSORS". |
| `Rules.ChoiceNameRoundTrip` | main.c:162-163 | Each valid choice can be recovered from its name. |
| `Text.NatToString` | main.c:103 | `%d` of a non-negative number is a non-empty string of decimal digits with no leading zero. |
| `Text.NatToStringRoundTrip` | main.c:103 | The digits printed for n read back as n. |
| `Text.IntToString` | main.c:60-62 | `%d` of an int is a numeral with a minus sign exactly for negative values, and it contains no space. |
| `Text.IntToStringRoundTrip` | main.c:60-62 | The numeral printed for any int reads back as that int. |
| `Text.RoundDisplay` | main.c:70-75 | The header is "Calculating Results..." exactly when the round counter is past `TOTAL_ROUNDS`. |
| `Text.RoundDisplayShowsRound` | main.c:70-71 | While the round counter is at most 3, the header is "Round ", the counter's numeral, then ": Fight!". The middle part is exactly `IntToString` of the counter, and it reads back as the counter. |
| `Text.DisplayName` | main.c:61 | The score line shows the stored name, or "Player" when no name is stored. |
| `Text.ScoreDisplay` | main.c:60-62 | The score line is laid out as the shown name and ": ", then the player's numeral, then `SCORE_SEPARATOR` (a bar and "Computer: "), then the computer's numeral. Each numeral reads back as its score. |
| `Text.ScoreDisplayReadsBack` | main.c:60-62 | The score line starts with the stored name, or with "Player" when none is stored. For a given name it determines both scores, the player's first. |
| `Text.FeedbackText` | main.c:179 | The feedback line is laid out as "You: ", the player's choice name, "  vs  PC: ", then the computer's choice name. A valid choice is recovered from its name. |
| `Text.FeedbackReadsBack` | main.c:179 | The "You: X  vs  PC: Y" line determines both valid choices, the player's first. |
| `Text.ResultText` | main.c:189-198 | Each round result has its own label: "It's a Draw.", "You Won!" or "Computer Won.". |
| `Text.OutcomeText` | main.c:92-101 | The champion headline is "CHAMPION!\n", then the stored name, then " wins!". Defeat and a drawn game have fixed texts. |
| `Text.FinalScoreText` | main.c:103 | The final score text is laid out as "Final Score: ", the player's numeral, " - ", then the computer's numeral. Each numeral reads back as its score. |
| `Text.FinalScoreReadsBack` | main.c:103 | The "Final Score: P - C" text determines both scores, the player's first. |
| `Engine.NewGame` | main.c:118-121 | Starting a new game sets the round to 1 and both scores to 0. The name is kept. |
| `Engine.Play` | main.c:160-212 | A round adds one to the round counter in both branches. It gives one point to the winner and none on a draw, and it leaves the name unchanged. |
| `Engine.PlayTally` | main.c:167-176 | The sum of the scores grows by exactly 1 on a non-draw and by 0 on a draw. At least one score is unchanged. |
| `Engine.CopyName` | main.c:230 | The stored name is the input's prefix of length min(length, 49). |
| `Engine.CopyNameIdempotent` | main.c:230 | Copying a stored name again changes nothing. |
| `Engine.NameAccepted` | main.c:223 | A name is accepted exactly when it is neither NULL nor the empty string. |
| `Engine.SubmitName` | main.c:223-233 | A missing or empty name leaves all four fields unchanged. Otherwise the round is 1, the scores are 0, and the name is the input cut to at most 49 characters. |
| `Engine.TransitionsKeepInvariants` | main.c:118-233 | Every transition keeps non-negative scores and a name that fits its buffer. A new game, a round played in a running game and a name submission keep "at most one point per round played" (`Tally <= round - 1`). |
| `Engine.PlayAllCounts` | main.c:167-212 | After any sequence of rounds the counter has grown by the number of rounds. The scores have grown by the number of rounds that were not drawn. |
| `Engine.GameFromNewGame` | main.c:203-212 | From a new game, after k <= 3 rounds the counter is k + 1 and the scores add up to at most k. `RoundDisplay` of the counter is the calculating text exactly when k = 3. |
| `Engine.NoDrawsAllDecisive` | main.c:167-176 | In a sequence of rounds with no draw, every round hands out a point. |
| `Engine.FullGameWithoutDrawHasWinner` | main.c:92-101 | Three rounds without a draw can never end in a drawn game. |
| `Engine.App.constructor` | main.c:509 | The record starts zero-filled: round 0, no points and an empty name. |
| `Engine.App.StartNewGame` | main.c:118-141 | The fields become `NewGame` of the old fields. The labels shown are the round 1 header, the score line with 0 - 0, "Make your move..." and an empty result label. |
| `Engine.App.StartNextRoundUi` | main.c:144-157 | The method changes no field (it has no `modifies` clause). It returns the header and score line of the current fields, "Make your move..." and an empty result label. The header is not the calculating message while rounds remain. |
| `Engine.App.ProcessRound` | main.c:160-213 | The fields become `Play` of the old fields. The method returns the outcome, the feedback, result and score labels for the new scores, and whether the final screen was scheduled (exactly when the old round was at least 3). |
| `Engine.App.OnStartClicked` | main.c:217-234 | The name is accepted exactly when it is present and non-empty. The fields become `SubmitName` of the old fields. A game screen is returned exactly when the name is accepted: the round 1 header, the 0 - 0 score line with the stored name, "Make your move..." and an empty result label. |
| `Engine.App.OnShowFinalResults` | main.c:81-114 | The method changes no field. Its verdict is `FinalVerdict` of the scores, so `VerdictSwap` and `FullGameWithoutDrawHasWinner` apply to it. It returns the headline for that verdict and "Final Score: P - C". |

## Left out

- GTK widget construction and CSS loading (main.c:253-545). The core callbacks also make GTK calls: setting labels (main.c:63, 76, 106-107, 124-125, 145-146, 180, 190-196, 224), CSS classes, button visibility and labels (main.c:136-137, 155-156, 201, 205-206, 225, 231), and screen switching (main.c:112, 140). The model returns the text of each label from the method that sets it (the four game-screen labels from `StartNewGame`, `StartNextRoundUi` and an accepted `OnStartClicked`, the feedback, result and score labels from `ProcessRound`, the two result-screen labels from `OnShowFinalResults`). It does not model the calls themselves, the CSS classes, visibility or the visible screen.
- The name-error label "Hold on! Every hero needs a name!" (main.c:224-225): only whether the name was accepted is modelled.
- The `rand()` draw and its `srand(time(NULL))` seed: the computer's choice is an input in 1..3. Its uniform distribution is not modelled.
- The one-second `g_timeout_add_seconds` that shows the result screen: `ProcessRound` reports that the final screen is scheduled, and `OnShowFinalResults` is a separate call. A reset that happens before the timer fires is not modelled.
- The choice button wrappers, "play again" and quit callbacks (main.c:237-249): they only call `ProcessRound` with 1, 2 or 3, call `StartNewGame`, or end the process.
- Memory management (`g_free`, `g_strdup_printf`): strings are Dafny strings.
- `Engine.CopyName`: one character stands for one byte, so the 49-byte cut of `g_strlcpy` is modelled as a 49-character cut. A UTF-8 name that is cut in the middle of a multi-byte character is not modelled.
- 32-bit `int` overflow of the counters is not modelled. Under the GUI the counters stay within 0..4 (`GameFromNewGame`).
