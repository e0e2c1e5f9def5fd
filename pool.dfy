/** Building the working pool of a session from a mode and an optional
    filter: handles on the matching questions, then on the matching code
    reviews, each in file order. */
module Pool {
  import opened Text
  import opened QuizModel

  datatype Mode = All | QuestionsOnly | CodeReviewsOnly

  /** The filter is applied only when it is a non-empty string: the source
      tests it for truthiness, and the empty string is falsy. */
  predicate FilterActive(filter: Option<string>)
  {
    filter.Some? && filter.value != ""
  }

  /** Whether an item whose `system` (or category) is `field` passes the
      filter: a case-insensitive substring match, or anything at all when no
      filter is active. */
  predicate Keeps(field: string, filter: Option<string>)
  {
    !FilterActive(filter) || Contains(ToLower(field), ToLower(filter.value))
  }

  function CategoryNames(crs: seq<CodeReview>): (fs: seq<string>)
    ensures |fs| == |crs|
  {
    seq(|crs|, i requires 0 <= i < |crs| => CategoryName(crs[i].category))
  }

  /** Handles of kind `kind` on the first `n` items whose field passes the
      filter, in order. */
  function Kept(kind: Kind, fields: seq<string>, filter: Option<string>, n: nat): seq<Ref>
    requires n <= |fields|
  {
    if n == 0 then []
    else Kept(kind, fields, filter, n - 1)
         + (if Keeps(fields[n - 1], filter) then [Ref(kind, n - 1)] else [])
  }

  function QuestionPart(d: QuizData, mode: Mode, filter: Option<string>): seq<Ref>
  {
    if mode == All || mode == QuestionsOnly
    then Kept(QuestionKind, Systems(d.questions), filter, |d.questions|)
    else []
  }

  function ReviewPart(d: QuizData, mode: Mode, filter: Option<string>): seq<Ref>
  {
    if mode == All || mode == CodeReviewsOnly
    then Kept(ReviewKind, CategoryNames(Reviews(d)), filter, |Reviews(d)|)
    else []
  }

  /** The handles of the first `n` items of one kind, in file order. */
  function Handles(kind: Kind, n: nat): seq<Ref>
  {
    seq(n, (i: int) requires 0 <= i => Ref(kind, i))
  }

  /** The pool a session over `d` works on. */
  function PoolOf(d: QuizData, mode: Mode, filter: Option<string>): seq<Ref>
  {
    QuestionPart(d, mode, filter) + ReviewPart(d, mode, filter)
  }

  /** The pool-building statements of `runQuiz`: push the matching
      questions, then the matching code reviews. */
  method BuildPool(d: QuizData, mode: Mode, filter: Option<string>) returns (pool: seq<Ref>)
    ensures pool == PoolOf(d, mode, filter)
  {
    var questions: seq<Ref> := [];
    if mode == All || mode == QuestionsOnly {
      questions := KeepMatching(QuestionKind, Systems(d.questions), filter);
    }
    assert questions == QuestionPart(d, mode, filter);
    var codeReviews: seq<Ref> := [];
    if mode == All || mode == CodeReviewsOnly {
      codeReviews := KeepMatching(ReviewKind, CategoryNames(Reviews(d)), filter);
    }
    assert codeReviews == ReviewPart(d, mode, filter);
    pool := questions + codeReviews;
  }

  /** The `filter` call on one list (or the whole list when no filter is
      active): handles on the items whose field passes, in order. */
  method KeepMatching(kind: Kind, fields: seq<string>, filter: Option<string>) returns (kept: seq<Ref>)
    ensures kept == Kept(kind, fields, filter, |fields|)
  {
    kept := [];
    var i := 0;
    while i < |fields|
      invariant 0 <= i <= |fields|
      invariant kept == Kept(kind, fields, filter, i)
    {
      if Keeps(fields[i], filter) {
        kept := kept + [Ref(kind, i)];
      }
      i := i + 1;
    }
  }

  /** A handle is kept exactly when it has the right kind, points below `n`,
      and its item's field passes the filter. */
  lemma {:induction false} KeptMembers(kind: Kind, fields: seq<string>, filter: Option<string>, n: nat, r: Ref)
    requires n <= |fields|
    ensures r in Kept(kind, fields, filter, n) <==>
            r.kind == kind && r.index < n && Keeps(fields[r.index], filter)
  {
    if n > 0 {
      KeptMembers(kind, fields, filter, n - 1, r);
    }
  }

  /** Handles whose positions strictly increase along the sequence. */
  predicate Increasing(ks: seq<Ref>)
  {
    forall i, j :: 0 <= i < j < |ks| ==> ks[i].index < ks[j].index
  }

  /** Kept handles point at strictly increasing positions: the file order is
      kept and no item appears twice. */
  lemma {:induction false} KeptOrdered(kind: Kind, fields: seq<string>, filter: Option<string>, n: nat)
    requires n <= |fields|
    ensures Increasing(Kept(kind, fields, filter, n))
    ensures forall r :: r in Kept(kind, fields, filter, n) ==> r.kind == kind && r.index < n
  {
    if n > 0 {
      KeptOrdered(kind, fields, filter, n - 1);
      var prev := Kept(kind, fields, filter, n - 1);
      if Keeps(fields[n - 1], filter) {
        var ks := prev + [Ref(kind, n - 1)];
        assert Kept(kind, fields, filter, n) == ks;
        forall i, j | 0 <= i < j < |ks|
          ensures ks[i].index < ks[j].index
        {
          assert ks[i] == prev[i] && prev[i] in prev;
          if j < |prev| {
            assert ks[j] == prev[j];
          }
        }
      } else {
        assert Kept(kind, fields, filter, n) == prev;
      }
    }
  }

  /** With no active filter every item is kept, in order. */
  lemma {:induction false} KeptUnfiltered(kind: Kind, fields: seq<string>, filter: Option<string>, n: nat)
    requires n <= |fields|
    requires !FilterActive(filter)
    ensures var ks := Kept(kind, fields, filter, n);
            |ks| == n && forall i :: 0 <= i < n ==> ks[i] == Ref(kind, i)
  {
    if n > 0 {
      KeptUnfiltered(kind, fields, filter, n - 1);
    }
  }

  /** Membership in the pool: a question handle is in it exactly when the
      mode takes questions and the question's `system` passes the filter; a
      code-review handle exactly when the mode takes code reviews and the
      review's category passes the filter. */
  lemma {:induction false} PoolMembers(d: QuizData, mode: Mode, filter: Option<string>, r: Ref)
    ensures r in PoolOf(d, mode, filter) <==>
      (r.kind == QuestionKind && (mode == All || mode == QuestionsOnly)
         && r.index < |d.questions| && Keeps(d.questions[r.index].system, filter))
      || (r.kind == ReviewKind && (mode == All || mode == CodeReviewsOnly)
         && r.index < |Reviews(d)| && Keeps(CategoryName(Reviews(d)[r.index].category), filter))
  {
    KeptMembers(QuestionKind, Systems(d.questions), filter, |d.questions|, r);
    KeptMembers(ReviewKind, CategoryNames(Reviews(d)), filter, |Reviews(d)|, r);
  }

  /** Every handle in the pool designates an item of the data. */
  lemma {:induction false} PoolResolves(d: QuizData, mode: Mode, filter: Option<string>)
    ensures forall r :: r in PoolOf(d, mode, filter) ==> Resolves(d, r)
  {
    forall r | r in PoolOf(d, mode, filter)
      ensures Resolves(d, r)
    {
      PoolMembers(d, mode, filter, r);
    }
  }

  /** Questions come before code reviews, and within each kind the file
      order is kept. */
  lemma {:induction false} PoolOrdered(d: QuizData, mode: Mode, filter: Option<string>)
    ensures var p := PoolOf(d, mode, filter);
            forall i, j :: 0 <= i < j < |p| ==>
              (p[i].kind == ReviewKind ==> p[j].kind == ReviewKind)
              && (p[i].kind == p[j].kind ==> p[i].index < p[j].index)
  {
    KeptOrdered(QuestionKind, Systems(d.questions), filter, |d.questions|);
    KeptOrdered(ReviewKind, CategoryNames(Reviews(d)), filter, |Reviews(d)|);
    JoinOrdered(QuestionPart(d, mode, filter), ReviewPart(d, mode, filter));
  }

  lemma {:induction false} JoinOrdered(qp: seq<Ref>, rp: seq<Ref>)
    requires Increasing(qp) && Increasing(rp)
    requires forall r :: r in qp ==> r.kind == QuestionKind
    requires forall r :: r in rp ==> r.kind == ReviewKind
    ensures var p := qp + rp;
            forall i, j :: 0 <= i < j < |p| ==>
              (p[i].kind == ReviewKind ==> p[j].kind == ReviewKind)
              && (p[i].kind == p[j].kind ==> p[i].index < p[j].index)
  {
    var p := qp + rp;
    forall i, j | 0 <= i < j < |p|
      ensures (p[i].kind == ReviewKind ==> p[j].kind == ReviewKind)
              && (p[i].kind == p[j].kind ==> p[i].index < p[j].index)
    {
      if i < |qp| {
        assert p[i] == qp[i] && p[i] in qp;
        if j >= |qp| {
          assert p[j] == rp[j - |qp|] && p[j] in rp;
        } else {
          assert p[j] == qp[j];
        }
      } else {
        assert p[i] == rp[i - |qp|] && p[j] == rp[j - |qp|];
        assert p[i] in rp && p[j] in rp;
      }
    }
  }

  /** With no filter the pool is every question (if the mode takes them)
      followed by every code review (if the mode takes them). */
  lemma {:induction false} PoolUnfiltered(d: QuizData, mode: Mode, filter: Option<string>)
    requires !FilterActive(filter)
    ensures PoolOf(d, mode, filter) ==
            (if mode == All || mode == QuestionsOnly then Handles(QuestionKind, |d.questions|) else [])
            + (if mode == All || mode == CodeReviewsOnly then Handles(ReviewKind, |Reviews(d)|) else [])
    ensures |PoolOf(d, mode, filter)| ==
            (if mode == All || mode == QuestionsOnly then |d.questions| else 0)
            + (if mode == All || mode == CodeReviewsOnly then |Reviews(d)| else 0)
  {
    KeptUnfiltered(QuestionKind, Systems(d.questions), filter, |d.questions|);
    KeptUnfiltered(ReviewKind, CategoryNames(Reviews(d)), filter, |Reviews(d)|);
    assert Kept(QuestionKind, Systems(d.questions), filter, |d.questions|) == Handles(QuestionKind, |d.questions|);
    assert Kept(ReviewKind, CategoryNames(Reviews(d)), filter, |Reviews(d)|) == Handles(ReviewKind, |Reviews(d)|);
  }

  /** A file without a `code_reviews` list contributes no code review, so
      the code-review mode finds nothing in it. */
  lemma {:induction false} AbsentReviewsGiveNothing(d: QuizData, filter: Option<string>)
    requires d.codeReviews.None?
    ensures PoolOf(d, CodeReviewsOnly, filter) == []
    ensures forall r :: r in PoolOf(d, All, filter) ==> r.kind == QuestionKind
  {
    forall r | r in PoolOf(d, All, filter)
      ensures r.kind == QuestionKind
    {
      PoolMembers(d, All, filter, r);
    }
  }

  /** The filter `pay` matches the system `Payments`. */
  lemma {:induction false} PayMatchesPayments()
    ensures Keeps("Payments", Some("pay"))
  {
    assert ToLower("Payments")[..3] == "pay";
  }
}
