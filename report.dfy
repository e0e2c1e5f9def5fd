/** The figures `printStats` shows, per item kind: how many items, how many
    were ever asked, summed right answers and attempts, the rounded accuracy;
    then the streaks and the distinct systems of the questions. */
module Report {
  import opened QuizModel
  import opened Grading

  /** How many items have been asked at least once. */
  function Attempted(ts: seq<Tally>): nat
  {
    if ts == [] then 0
    else Attempted(ts[..|ts| - 1]) + (if ts[|ts| - 1].asked > 0 then 1 else 0)
  }

  function SumAsked(ts: seq<Tally>): nat
  {
    if ts == [] then 0 else SumAsked(ts[..|ts| - 1]) + ts[|ts| - 1].asked
  }

  function SumCorrect(ts: seq<Tally>): nat
  {
    if ts == [] then 0 else SumCorrect(ts[..|ts| - 1]) + ts[|ts| - 1].correct
  }

  /** `Math.round(correct / asked * 100)`, or 0 when nothing was asked,
      computed on integers. */
  function Accuracy(correct: nat, asked: nat): nat
  {
    if asked > 0 then (200 * correct + asked) / (2 * asked) else 0
  }

  /** The accuracy is the percentage rounded to the nearest integer, halves
      rounded up: `100 * correct / asked` lies in `[p - 1/2, p + 1/2)`. Given
      the per-item invariant it is a percentage. */
  lemma {:induction false} AccuracyRounds(correct: nat, asked: nat)
    requires asked > 0
    ensures var p := Accuracy(correct, asked);
            asked * (2 * p - 1) <= 200 * correct < asked * (2 * p + 1)
    ensures correct <= asked ==> Accuracy(correct, asked) <= 100
  {
    var n := 200 * correct + asked;
    var m := 2 * asked;
    var p := n / m;
    assert p == Accuracy(correct, asked);
    var rem := n % m;
    assert n == p * m + rem && 0 <= rem < m;
    assert asked * (2 * p - 1) == p * m - asked;
    assert asked * (2 * p + 1) == p * m + asked;
    if correct <= asked {
      assert p * m < 101 * m;
      MulCancel(p, 101, m);
    }
  }

  lemma {:induction false} MulCancel(x: int, y: int, m: nat)
    requires x * m < y * m
    ensures x < y
  {
  }

  /** The attempted items are among all items. */
  lemma {:induction false} AttemptedAtMostTotal(ts: seq<Tally>)
    ensures Attempted(ts) <= |ts|
  {
    if ts != [] {
      AttemptedAtMostTotal(ts[..|ts| - 1]);
    }
  }

  /** Nothing was attempted exactly when the summed attempts are zero. */
  lemma {:induction false} NoAttemptsIff(ts: seq<Tally>)
    ensures Attempted(ts) == 0 <==> SumAsked(ts) == 0
  {
    if ts != [] {
      NoAttemptsIff(ts[..|ts| - 1]);
    }
  }

  /** With the per-item invariant, summed right answers never exceed summed
      attempts. */
  lemma {:induction false} CorrectAtMostAsked(ts: seq<Tally>)
    requires forall i :: 0 <= i < |ts| ==> TallyOk(ts[i])
    ensures SumCorrect(ts) <= SumAsked(ts)
  {
    if ts != [] {
      CorrectAtMostAsked(ts[..|ts| - 1]);
      assert TallyOk(ts[|ts| - 1]);
    }
  }

  datatype KindSummary = KindSummary(total: nat, attempted: nat, correct: nat, asked: nat, accuracy: nat)

  /** The summary line of one item kind. */
  function Summarize(ts: seq<Tally>): (k: KindSummary)
    ensures k.total == |ts| && k.attempted <= k.total
    ensures k.attempted == Attempted(ts) && k.correct == SumCorrect(ts) && k.asked == SumAsked(ts)
    ensures k.attempted == 0 <==> k.asked == 0
    ensures k.asked == 0 ==> k.accuracy == 0
    ensures k.asked > 0 ==> k.asked * (2 * k.accuracy - 1) <= 200 * k.correct < k.asked * (2 * k.accuracy + 1)
    ensures (forall i :: 0 <= i < |ts| ==> TallyOk(ts[i])) ==> k.correct <= k.asked && k.accuracy <= 100
  {
    AttemptedAtMostTotal(ts);
    NoAttemptsIff(ts);
    var c := SumCorrect(ts);
    var a := SumAsked(ts);
    var p := Accuracy(c, a);
    assert a > 0 ==> a * (2 * p - 1) <= 200 * c < a * (2 * p + 1) && (c <= a ==> p <= 100) by {
      if a > 0 {
        AccuracyRounds(c, a);
      }
    }
    assert (forall i :: 0 <= i < |ts| ==> TallyOk(ts[i])) ==> c <= a by {
      if forall i :: 0 <= i < |ts| ==> TallyOk(ts[i]) {
        CorrectAtMostAsked(ts);
      }
    }
    KindSummary(|ts|, Attempted(ts), c, a, Accuracy(c, a))
  }

  /** For example, items asked 0, 4 and 1 times, answered right 0, 2
      and 1 times, give 5 attempts, 3 right answers and 60%. */
  lemma {:induction false} SummarizeExample()
    ensures Summarize([Tally(0, 0), Tally(4, 2), Tally(1, 1)]) == KindSummary(3, 2, 3, 5, 60)
  {
    var ts := [Tally(0, 0), Tally(4, 2), Tally(1, 1)];
    var t1 := [Tally(0, 0)];
    var t2 := [Tally(0, 0), Tally(4, 2)];
    assert t1[..0] == [] && t2[..1] == t1 && ts[..2] == t2;
    assert Attempted(t1) == 0 && SumAsked(t1) == 0 && SumCorrect(t1) == 0;
    assert Attempted(t2) == 1 && SumAsked(t2) == 4 && SumCorrect(t2) == 2;
    assert Attempted(ts) == 2 && SumAsked(ts) == 5 && SumCorrect(ts) == 3;
    assert Accuracy(3, 5) == 60;
  }

  predicate Distinct(s: seq<string>)
  {
    forall i, j :: 0 <= i < j < |s| ==> s[i] != s[j]
  }

  /** `[...new Set(s)]`: the values of `s` once each, in the order of their
      first occurrence. */
  function Dedup(s: seq<string>): (r: seq<string>)
    ensures forall x :: x in r <==> x in s
    ensures Distinct(r)
  {
    if s == [] then []
    else
      var d := Dedup(s[..|s| - 1]);
      var x := s[|s| - 1];
      assert forall y :: y in s <==> y in s[..|s| - 1] || y == x;
      if x in d then d else d + [x]
  }

  datatype StatsReport = StatsReport(
    questions: KindSummary, codeReviews: KindSummary,
    currentStreak: nat, bestStreak: nat, systems: seq<string>)

  /** `printStats`: each kind summarised on its own (an absent code-review
      list counts as empty), the stored streaks (zero when there are none),
      and every question's system listed exactly once. */
  function StatsOf(d: QuizData): (r: StatsReport)
    ensures r.questions == Summarize(QuestionTallies(d.questions))
    ensures r.codeReviews == Summarize(ReviewTallies(Reviews(d)))
    ensures d.stats.None? ==> r.currentStreak == 0 && r.bestStreak == 0
    ensures d.stats.Some? ==> r.currentStreak == d.stats.value.currentStreak && r.bestStreak == d.stats.value.bestStreak
    ensures forall x :: x in r.systems <==> x in Systems(d.questions)
    ensures Distinct(r.systems)
  {
    var st := InitialStats(d.stats);
    StatsReport(
      Summarize(QuestionTallies(d.questions)), Summarize(ReviewTallies(Reviews(d))),
      st.currentStreak, st.bestStreak, Dedup(Systems(d.questions)))
  }
}
