/** How a round's answer line is read, and what a graded round does to the
    streak record. */
module Grading {
  import opened Text
  import opened QuizModel

  datatype Grade = Quit | Correct | Incorrect

  /** An input line as the quiz reads it: trimmed, then lower-cased. */
  function ReadToken(line: string): string
  {
    ToLower(Trim(line))
  }

  /** `q`/`quit` end the session, `y`/`yes` are a correct answer, and any
      other token, the empty one and `n` included, is an incorrect answer. */
  function Classify(token: string): (g: Grade)
    ensures g == Quit <==> token == "q" || token == "quit"
    ensures g == Correct <==> token == "y" || token == "yes"
    ensures g == Incorrect <==> token !in {"q", "quit", "y", "yes"}
  {
    if token == "q" || token == "quit" then Quit
    else if token == "y" || token == "yes" then Correct
    else Incorrect
  }

  /** Padding and letter case around a grading word do not change its grade. */
  lemma {:induction false} ClassifyIgnoresPaddingAndCase(pre: string, word: string, post: string)
    requires AllSpace(pre) && AllSpace(post)
    requires word != [] && !IsSpace(word[0]) && !IsSpace(word[|word| - 1])
    ensures Classify(ReadToken(pre + word + post)) == Classify(ToLower(word))
  {
    TrimIgnoresPadding(pre, word, post);
  }

  /** The record a session starts from: the stored one, or zero streaks and
      no date when the file has none. */
  function InitialStats(stored: Option<Stats>): Stats
  {
    match stored
    case None => Stats(0, 0, None)
    case Some(st) => st
  }

  /** The streak update of a graded round: a right answer extends the
      current streak, a wrong one resets it to zero; the best streak becomes
      the larger of itself and the new current streak, and the date is set. */
  function UpdateStreak(s: Stats, correct: bool, today: Date): (t: Stats)
    ensures correct ==> t.currentStreak == s.currentStreak + 1
    ensures !correct ==> t.currentStreak == 0
    ensures t.bestStreak == if t.currentStreak > s.bestStreak then t.currentStreak else s.bestStreak
    ensures t.bestStreak >= t.currentStreak && t.bestStreak >= s.bestStreak
    ensures t.bestStreak > s.bestStreak ==> correct && t.bestStreak == t.currentStreak
    ensures t.lastPlayed == Some(today)
  {
    if correct then
      var cur := s.currentStreak + 1;
      Stats(cur, if cur > s.bestStreak then cur else s.bestStreak, Some(today))
    else
      Stats(0, s.bestStreak, Some(today))
  }
}
