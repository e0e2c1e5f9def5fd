/** The quiz file's entities (Question, CodeReview, Stats, the root record)
    and handles into it, with the counter update a graded round applies. */
module QuizModel {

  datatype Option<T> = None | Some(value: T)

  /** Dates are stored as the caller supplies them (the source writes the
      `YYYY-MM-DD` part of the current time). */
  type Date = string

  datatype Category = Database | Performance | Security | Style | Logic

  /** The category as it is spelled in the data file. */
  function CategoryName(c: Category): string
  {
    match c
    case Database => "database"
    case Performance => "performance"
    case Security => "security"
    case Style => "style"
    case Logic => "logic"
  }

  datatype Question = Question(
    id: string, question: string, answer: string, system: string,
    sourcePr: string, sourceFile: string, addedDate: string,
    timesAsked: nat, timesCorrect: nat)

  datatype CodeReview = CodeReview(
    id: string, codeSnippet: string, answer: string, category: Category,
    reviewer: string, sourcePr: string, sourceFile: string, addedDate: string,
    timesAsked: nat, timesCorrect: nat)

  datatype Stats = Stats(currentStreak: nat, bestStreak: nat, lastPlayed: Option<Date>)

  /** The persisted root: `code_reviews` and `stats` may be absent. */
  datatype QuizData = QuizData(
    questions: seq<Question>, codeReviews: Option<seq<CodeReview>>, stats: Option<Stats>)

  /** The two counters every item carries. */
  datatype Tally = Tally(asked: nat, correct: nat)

  predicate TallyOk(t: Tally)
  {
    t.correct <= t.asked
  }

  datatype Kind = QuestionKind | ReviewKind

  /** A handle on an item of the data: which list, and the position in it.
      The pool holds these, so a change made through the pool lands in the data. */
  datatype Ref = Ref(kind: Kind, index: nat)

  /** The code reviews, with an absent list read as empty. */
  function Reviews(d: QuizData): seq<CodeReview>
  {
    match d.codeReviews
    case None => []
    case Some(crs) => crs
  }

  predicate Resolves(d: QuizData, r: Ref)
  {
    match r.kind
    case QuestionKind => r.index < |d.questions|
    case ReviewKind => d.codeReviews.Some? && r.index < |d.codeReviews.value|
  }

  function QuestionTally(q: Question): Tally
  {
    Tally(q.timesAsked, q.timesCorrect)
  }

  function ReviewTally(c: CodeReview): Tally
  {
    Tally(c.timesAsked, c.timesCorrect)
  }

  function QuestionTallies(qs: seq<Question>): (ts: seq<Tally>)
    ensures |ts| == |qs|
    ensures forall i :: 0 <= i < |qs| ==> ts[i] == QuestionTally(qs[i])
  {
    seq(|qs|, i requires 0 <= i < |qs| => QuestionTally(qs[i]))
  }

  function ReviewTallies(crs: seq<CodeReview>): (ts: seq<Tally>)
    ensures |ts| == |crs|
    ensures forall i :: 0 <= i < |crs| ==> ts[i] == ReviewTally(crs[i])
  {
    seq(|crs|, i requires 0 <= i < |crs| => ReviewTally(crs[i]))
  }

  /** The `system` of each question, in order. */
  function Systems(qs: seq<Question>): (fs: seq<string>)
    ensures |fs| == |qs|
  {
    seq(|qs|, i requires 0 <= i < |qs| => qs[i].system)
  }

  function TallyOf(d: QuizData, r: Ref): Tally
    requires Resolves(d, r)
  {
    match r.kind
    case QuestionKind => QuestionTally(d.questions[r.index])
    case ReviewKind => ReviewTally(d.codeReviews.value[r.index])
  }

  /** Every item has been answered correctly at most as often as it was asked. */
  predicate WellFormed(d: QuizData)
  {
    (forall i :: 0 <= i < |d.questions| ==> TallyOk(QuestionTally(d.questions[i])))
    && (forall i :: 0 <= i < |Reviews(d)| ==> TallyOk(ReviewTally(Reviews(d)[i])))
  }

  /** Both lists keep their presence and their lengths. */
  predicate SameShape(d: QuizData, e: QuizData)
  {
    |d.questions| == |e.questions|
    && d.codeReviews.Some? == e.codeReviews.Some?
    && |Reviews(d)| == |Reviews(e)|
  }

  /** `e` is `d` with at most the items' counters (and the streak record)
      changed: both lists keep their shape and every other field of every item. */
  predicate OnlyCountersChanged(d: QuizData, e: QuizData)
  {
    SameShape(d, e)
    && (forall i :: 0 <= i < |d.questions| ==>
          e.questions[i] == d.questions[i].(timesAsked := e.questions[i].timesAsked, timesCorrect := e.questions[i].timesCorrect))
    && (forall i :: 0 <= i < |Reviews(d)| ==>
          Reviews(e)[i] == Reviews(d)[i].(timesAsked := Reviews(e)[i].timesAsked, timesCorrect := Reviews(e)[i].timesCorrect))
  }

  function Bump(t: Tally, correct: bool): Tally
  {
    Tally(t.asked + 1, if correct then t.correct + 1 else t.correct)
  }

  /** The counter update of one graded round on the item `r` designates:
      `times_asked` grows by one, `times_correct` by one exactly when the
      answer was right, and nothing else in the data changes. */
  function RecordAnswer(d: QuizData, r: Ref, correct: bool): (e: QuizData)
    requires Resolves(d, r)
    ensures SameShape(d, e) && e.stats == d.stats
    ensures Resolves(e, r)
    ensures TallyOf(e, r).asked == TallyOf(d, r).asked + 1
    ensures TallyOf(e, r).correct == if correct then TallyOf(d, r).correct + 1 else TallyOf(d, r).correct
    ensures forall o :: Resolves(d, o) && o != r ==> Resolves(e, o) && TallyOf(e, o) == TallyOf(d, o)
    ensures forall i :: 0 <= i < |d.questions| && Ref(QuestionKind, i) != r ==> e.questions[i] == d.questions[i]
    ensures forall i :: 0 <= i < |Reviews(d)| && Ref(ReviewKind, i) != r ==> Reviews(e)[i] == Reviews(d)[i]
    ensures r.kind == QuestionKind ==>
      e.questions[r.index] == d.questions[r.index].(timesAsked := TallyOf(e, r).asked, timesCorrect := TallyOf(e, r).correct)
    ensures r.kind == ReviewKind ==>
      Reviews(e)[r.index] == Reviews(d)[r.index].(timesAsked := TallyOf(e, r).asked, timesCorrect := TallyOf(e, r).correct)
    ensures WellFormed(d) ==> WellFormed(e)
  {
    var t := Bump(TallyOf(d, r), correct);
    match r.kind
    case QuestionKind =>
      var q := d.questions[r.index];
      d.(questions := d.questions[r.index := q.(timesAsked := t.asked, timesCorrect := t.correct)])
    case ReviewKind =>
      var crs := d.codeReviews.value;
      var c := crs[r.index];
      d.(codeReviews := Some(crs[r.index := c.(timesAsked := t.asked, timesCorrect := t.correct)]))
  }
}
