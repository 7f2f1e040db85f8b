/**
 The label texts the game shows, with the `%d` formatting they rely on.
 Each text is a pure function of the game state; the lemmas show that the
 numbers and choices a label shows can be read back from it unambiguously.
 Characters stand for the bytes of the C strings.
 */
module Text {
  import opened Wrappers
  import opened Rules

  // ---------------------------------------------------------------------------
  // Decimal formatting, as `%d` prints an int
  // ---------------------------------------------------------------------------

  predicate IsDigit(ch: char) {
    '0' <= ch <= '9'
  }

  predicate AllDigits(s: string) {
    forall i :: 0 <= i < |s| ==> IsDigit(s[i])
  }

  function DigitChar(d: int): (ch: char)
    requires 0 <= d < 10
    ensures IsDigit(ch)
    ensures ch == '0' <==> d == 0
  {
    (48 + d) as char
  }

  function DigitValue(ch: char): (d: nat)
    requires IsDigit(ch)
    ensures d < 10
  {
    ch as int - 48
  }

  /** Decimal digits of `n`, most significant first, without leading zeros. */
  function NatToString(n: nat): (s: string)
    ensures |s| > 0 && AllDigits(s)
    ensures s[0] == '0' ==> n == 0
    decreases n
  {
    if n < 10 then [DigitChar(n)] else NatToString(n / 10) + [DigitChar(n % 10)]
  }

  /** The number a string of decimal digits denotes. */
  function DecimalValue(s: string): nat
    requires AllDigits(s)
  {
    if s == [] then 0 else DecimalValue(s[..|s| - 1]) * 10 + DigitValue(s[|s| - 1])
  }

  lemma {:induction false} NatToStringRoundTrip(n: nat)
    ensures DecimalValue(NatToString(n)) == n
    decreases n
  {
    if n >= 10 {
      var s := NatToString(n);
      NatToStringRoundTrip(n / 10);
      assert s[..|s| - 1] == NatToString(n / 10);
    }
  }

  /** `%d` of a C int: an optional minus sign and the decimal digits of the magnitude. */
  function IntToString(i: int): (s: string)
    ensures IsNumeral(s)
    ensures s[0] == '-' <==> i < 0
    ensures ' ' !in s
  {
    if i < 0 then
      var digits := NatToString(-i);
      assert forall k :: 1 <= k < |digits| + 1 ==> ("-" + digits)[k] == digits[k - 1];
      "-" + digits
    else NatToString(i)
  }

  /** Text shaped like the output of `%d`. */
  predicate IsNumeral(s: string) {
    |s| > 0 &&
    if s[0] == '-' then |s| > 1 && AllDigits(s[1..]) else AllDigits(s)
  }

  /** The integer a numeral denotes; the inverse of `IntToString`. */
  function IntValue(s: string): int
    requires IsNumeral(s)
  {
    if s[0] == '-' then 0 - DecimalValue(s[1..]) else DecimalValue(s)
  }

  lemma IntToStringRoundTrip(i: int)
    ensures IntValue(IntToString(i)) == i
  {
    if i < 0 {
      NatToStringRoundTrip(-i);
      assert IntToString(i)[1..] == NatToString(-i);
    } else {
      NatToStringRoundTrip(i);
    }
  }

  /**
   A label made of a fixed head, a field `a`, a fixed separator `sep` and a
   field `b` determines both fields, provided the first character of `sep`
   cannot occur in the first field.
   */
  lemma TwoFieldsReadBack(head: string, a: string, sep: string, b: string, a': string, b': string)
    requires |sep| > 0 && sep[0] !in a && sep[0] !in a'
    requires head + a + sep + b == head + a' + sep + b'
    ensures a == a' && b == b'
  {
    var t := head + a + sep + b;
    assert forall k :: |head| <= k < |head| + |a| ==> t[k] == a[k - |head|];
    assert forall k :: |head| <= k < |head| + |a'| ==> t[k] == a'[k - |head|];
    assert t[|head| + |a|] == sep[0];
    assert t[|head| + |a'|] == sep[0];
    assert |a| == |a'|;
    assert a == t[|head|..|head| + |a|];
    assert a' == t[|head|..|head| + |a'|];
    assert b == t[|head| + |a| + |sep|..];
    assert b' == t[|head| + |a'| + |sep|..];
  }

  /** `text` consists of `head`, then the field `a`, then `sep`, then the field `b`. */
  predicate LaidOut(text: string, head: string, a: string, sep: string, b: string) {
    var n := |head|;
    var k := n + |a|;
    var m := k + |sep|;
    |text| == m + |b| &&
    text[..n] == head && text[n..k] == a && text[k..m] == sep && text[m..] == b
  }

  lemma FourParts(head: string, a: string, sep: string, b: string)
    ensures LaidOut(head + a + sep + b, head, a, sep, b)
  {
    var t := head + a + sep + b;
    assert t[..|head|] == head;
    assert t[|head|..|head| + |a|] == a;
    assert t[|head| + |a|..|head| + |a| + |sep|] == sep;
    assert t[|head| + |a| + |sep|..] == b;
  }

  // ---------------------------------------------------------------------------
  // Labels
  // ---------------------------------------------------------------------------

  const CALCULATING_TEXT: string := "Calculating Results..."
  const DEFAULT_PLAYER: string := "Player"
  /** Feedback label while a move is awaited; the result label is then cleared to "". */
  const MOVE_PROMPT: string := "Make your move..."
  const SCORE_SEPARATOR: string := "  |  Computer: "
  const FEEDBACK_SEPARATOR: string := "  vs  PC: "
  const FINAL_SEPARATOR: string := " - "

  /** Round header of `update_round_display`. */
  function RoundDisplay(round: int): (text: string)
    ensures text == CALCULATING_TEXT <==> round > TOTAL_ROUNDS
  {
    if round <= TOTAL_ROUNDS then
      var header := "Round " + IntToString(round) + ": Fight!";
      assert header[0] != CALCULATING_TEXT[0];
      header
    else CALCULATING_TEXT
  }

  /** While rounds remain, the header shows the round number and nothing else varies. */
  lemma RoundDisplayShowsRound(round: int)
    requires round <= TOTAL_ROUNDS
    ensures var t := RoundDisplay(round);
            |t| > 14 && t[..6] == "Round " && t[|t| - 8..] == ": Fight!" &&
            t[6..|t| - 8] == IntToString(round) && IntValue(t[6..|t| - 8]) == round
  {
    var t := RoundDisplay(round);
    assert t[6..|t| - 8] == IntToString(round);
    IntToStringRoundTrip(round);
  }

  /** The name shown in the score line: the stored name, or "Player" if none is stored. */
  function DisplayName(name: string): (shown: string)
    ensures |shown| > 0
    ensures name != [] ==> shown == name
    ensures name == [] ==> shown == DEFAULT_PLAYER
  {
    if name != [] then name else DEFAULT_PLAYER
  }

  /** Score line of `update_score_display`: shown name, ": ", player's numeral, separator, computer's numeral. */
  function ScoreDisplay(name: string, playerScore: int, computerScore: int): (text: string)
    ensures LaidOut(text, DisplayName(name) + ": ", IntToString(playerScore), SCORE_SEPARATOR, IntToString(computerScore))
    ensures IntValue(IntToString(playerScore)) == playerScore && IntValue(IntToString(computerScore)) == computerScore
  {
    IntToStringRoundTrip(playerScore);
    IntToStringRoundTrip(computerScore);
    FourParts(DisplayName(name) + ": ", IntToString(playerScore), SCORE_SEPARATOR, IntToString(computerScore));
    DisplayName(name) + ": " + IntToString(playerScore) + SCORE_SEPARATOR + IntToString(computerScore)
  }

  /**
   The score line opens with the stored name, or with "Player" when no name
   is stored, and for a given name it determines both scores, player first.
   */
  lemma ScoreDisplayReadsBack(name: string, p: int, c: int, p': int, c': int)
    ensures var shown := if name == [] then DEFAULT_PLAYER else name;
            |ScoreDisplay(name, p, c)| > |shown| && ScoreDisplay(name, p, c)[..|shown|] == shown
    ensures ScoreDisplay(name, p, c) == ScoreDisplay(name, p', c') ==> p == p' && c == c'
  {
    if ScoreDisplay(name, p, c) == ScoreDisplay(name, p', c') {
      TwoFieldsReadBack(DisplayName(name) + ": ", IntToString(p), SCORE_SEPARATOR, IntToString(c),
                        IntToString(p'), IntToString(c'));
      IntToStringRoundTrip(p);
      IntToStringRoundTrip(p');
      IntToStringRoundTrip(c);
      IntToStringRoundTrip(c');
    }
  }

  /** "You: X  vs  PC: Y": the player's choice name, the separator, the computer's choice name. */
  function FeedbackText(user: int, computer: int): (text: string)
    ensures LaidOut(text, "You: ", ChoiceName(user), FEEDBACK_SEPARATOR, ChoiceName(computer))
    ensures IsChoice(user) ==> ChoiceOfName(ChoiceName(user)) == Some(user)
    ensures IsChoice(computer) ==> ChoiceOfName(ChoiceName(computer)) == Some(computer)
  {
    FourParts("You: ", ChoiceName(user), FEEDBACK_SEPARATOR, ChoiceName(computer));
    "You: " + ChoiceName(user) + FEEDBACK_SEPARATOR + ChoiceName(computer)
  }

  /** The feedback line determines both valid choices, player first. */
  lemma FeedbackReadsBack(u: int, c: int, u': int, c': int)
    requires IsChoice(u) && IsChoice(c) && IsChoice(u') && IsChoice(c')
    requires FeedbackText(u, c) == FeedbackText(u', c')
    ensures u == u' && c == c'
  {
    TwoFieldsReadBack("You: ", ChoiceName(u), FEEDBACK_SEPARATOR, ChoiceName(c),
                      ChoiceName(u'), ChoiceName(c'));
    ChoiceNameRoundTrip(u);
    ChoiceNameRoundTrip(u');
    ChoiceNameRoundTrip(c);
    ChoiceNameRoundTrip(c');
  }

  /** Text of the round-result label. */
  function ResultText(r: RoundResult): (text: string)
    ensures r == Draw <==> text == "It's a Draw."
    ensures r == PlayerWin <==> text == "You Won!"
    ensures r == ComputerWin <==> text == "Computer Won."
  {
    match r
    case Draw => "It's a Draw."
    case PlayerWin => "You Won!"
    case ComputerWin => "Computer Won."
  }

  /** Headline of the result screen; the player's name appears only in a win. */
  function OutcomeText(v: Verdict, name: string): (text: string)
    ensures v == Champion ==>
              |text| == 16 + |name| && text[..10] == "CHAMPION!\n" && text[10..10 + |name|] == name &&
              text[10 + |name|..] == " wins!"
    ensures v == Defeat ==> text == "DEFEAT!\nThe Computer won."
    ensures v == DrawGame ==> text == "DRAW GAME!"
  {
    match v
    case Champion => "CHAMPION!\n" + name + " wins!"
    case Defeat => "DEFEAT!\nThe Computer won."
    case DrawGame => "DRAW GAME!"
  }

  /** "Final Score: P - C" of the result screen: the player's numeral, " - ", the computer's numeral. */
  function FinalScoreText(playerScore: int, computerScore: int): (text: string)
    ensures LaidOut(text, "Final Score: ", IntToString(playerScore), FINAL_SEPARATOR, IntToString(computerScore))
    ensures IntValue(IntToString(playerScore)) == playerScore && IntValue(IntToString(computerScore)) == computerScore
  {
    IntToStringRoundTrip(playerScore);
    IntToStringRoundTrip(computerScore);
    FourParts("Final Score: ", IntToString(playerScore), FINAL_SEPARATOR, IntToString(computerScore));
    "Final Score: " + IntToString(playerScore) + FINAL_SEPARATOR + IntToString(computerScore)
  }

  /** The final score text reports the player's score, then the computer's. */
  lemma FinalScoreReadsBack(p: int, c: int, p': int, c': int)
    ensures FinalScoreText(p, c) == FinalScoreText(p', c') ==> p == p' && c == c'
  {
    if FinalScoreText(p, c) == FinalScoreText(p', c') {
      TwoFieldsReadBack("Final Score: ", IntToString(p), FINAL_SEPARATOR, IntToString(c),
                        IntToString(p'), IntToString(c'));
    }
  }
}
