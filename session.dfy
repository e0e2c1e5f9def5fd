/** The quiz session of `runQuiz`: the pool is built once, then each round
    picks an item, reads the grading line, updates the item's counters and
    the streak record in place, and saves the whole data. */
module Session {
  import opened QuizModel
  import opened Grading
  import opened Selector
  import opened Pool

  /** Everything a round can change: the data (with the item counters), the
      session's streak record, whether the loop goes on, and what was last
      written to the data file. */
  datatype SessionState = SessionState(data: QuizData, stats: Stats, running: bool, persisted: QuizData)

  /** One round on the item `r` with grade `g`. Quitting stops the loop and
      changes nothing else: no counter, no streak, no save. A graded round
      counts one more attempt on `r` (and one more right answer exactly when
      it was right), leaves every other item as it was, updates the streaks,
      stores the streak record in the data and saves the data. */
  function Advance(s: SessionState, r: Ref, g: Grade, today: Date): (t: SessionState)
    requires Resolves(s.data, r)
    ensures g == Quit ==> t == s.(running := false)
    ensures g != Quit ==> t.running && t.persisted == t.data && t.data.stats == Some(t.stats)
    ensures SameShape(s.data, t.data) && Resolves(t.data, r)
    ensures g != Quit ==> TallyOf(t.data, r).asked == TallyOf(s.data, r).asked + 1
    ensures g != Quit ==> (TallyOf(t.data, r).correct ==
              if g == Correct then TallyOf(s.data, r).correct + 1 else TallyOf(s.data, r).correct)
    ensures forall o :: Resolves(s.data, o) && o != r ==> Resolves(t.data, o) && TallyOf(t.data, o) == TallyOf(s.data, o)
    ensures forall i :: 0 <= i < |s.data.questions| && Ref(QuestionKind, i) != r ==> t.data.questions[i] == s.data.questions[i]
    ensures forall i :: 0 <= i < |Reviews(s.data)| && Ref(ReviewKind, i) != r ==> Reviews(t.data)[i] == Reviews(s.data)[i]
    ensures r.kind == QuestionKind ==>
              t.data.questions[r.index] == s.data.questions[r.index].(timesAsked := TallyOf(t.data, r).asked, timesCorrect := TallyOf(t.data, r).correct)
    ensures r.kind == ReviewKind ==>
              Reviews(t.data)[r.index] == Reviews(s.data)[r.index].(timesAsked := TallyOf(t.data, r).asked, timesCorrect := TallyOf(t.data, r).correct)
    ensures g == Correct ==> t.stats.currentStreak == s.stats.currentStreak + 1
    ensures g == Incorrect ==> t.stats.currentStreak == 0
    ensures g != Quit ==> (t.stats.bestStreak ==
              if t.stats.currentStreak > s.stats.bestStreak then t.stats.currentStreak else s.stats.bestStreak)
    ensures g != Quit ==> t.stats.bestStreak >= t.stats.currentStreak && t.stats.lastPlayed == Some(today)
    ensures t.stats.bestStreak >= s.stats.bestStreak
    ensures WellFormed(s.data) ==> WellFormed(t.data)
  {
    if g == Quit then s.(running := false)
    else
      var correct := g == Correct;
      var stats := UpdateStreak(s.stats, correct, today);
      var data := RecordAnswer(s.data, r, correct).(stats := Some(stats));
      SessionState(data, stats, true, data)
  }

  /** The counters of the pool's items, in pool order. */
  function PoolTallies(d: QuizData, pool: seq<Ref>): (ts: seq<Tally>)
    requires forall r :: r in pool ==> Resolves(d, r)
    ensures |ts| == |pool|
  {
    seq(|pool|, i requires 0 <= i < |pool| => TallyOf(d, pool[i]))
  }

  /** How many times `r` occurs in `picks`. */
  function Count(picks: seq<Ref>, r: Ref): nat
  {
    if picks == [] then 0
    else Count(picks[..|picks| - 1], r) + (if picks[|picks| - 1] == r then 1 else 0)
  }

  /** The picks of the rounds graded right, in order: the `j`-th pick was
      made in the round of grade `gs[j]`. */
  function Wins(picks: seq<Ref>, gs: seq<Grade>): seq<Ref>
    requires |picks| <= |gs|
  {
    if picks == [] then []
    else Wins(picks[..|picks| - 1], gs) + (if gs[|picks| - 1] == Correct then [picks[|picks| - 1]] else [])
  }

  /** The inputs of one round: the reveal prompt's line is ignored by the
      source and so is not here; the grading line, the draw of the weighted
      pick (already scaled to the total weight) and the date of the round. */
  datatype RoundInput = RoundInput(draw: real, gradeLine: string, today: Date)

  /** The grade the round's grading line stands for. */
  function GradeOf(input: RoundInput): Grade
  {
    Classify(ReadToken(input.gradeLine))
  }

  /** The grades of a script of rounds, in order. */
  function Grades(rounds: seq<RoundInput>): (gs: seq<Grade>)
    ensures |gs| == |rounds|
  {
    if rounds == [] then [] else Grades(rounds[..|rounds| - 1]) + [GradeOf(rounds[|rounds| - 1])]
  }

  lemma {:induction false} GradesAt(rounds: seq<RoundInput>, j: nat)
    requires j < |rounds|
    ensures Grades(rounds)[j] == GradeOf(rounds[j])
  {
    var init := rounds[..|rounds| - 1];
    assert Grades(rounds) == Grades(init) + [GradeOf(rounds[|rounds| - 1])];
    if j < |rounds| - 1 {
      GradesAt(init, j);
      assert init[j] == rounds[j];
    }
  }

  /** The streak record after the first `n` rounds of a script, all of them
      graded, starting from `st`: each round applies the streak rules with
      its grade and its date. */
  function Replay(st: Stats, gs: seq<Grade>, rounds: seq<RoundInput>, n: nat): Stats
    requires n <= |gs| && n <= |rounds|
  {
    if n == 0 then st
    else UpdateStreak(Replay(st, gs, rounds, n - 1), gs[n - 1] == Correct, rounds[n - 1].today)
  }

  /** How many of the grades right before position `n` are right answers in a row. */
  function RightInARow(gs: seq<Grade>, n: nat): (c: nat)
    requires n <= |gs|
    ensures c <= n
  {
    if n == 0 || gs[n - 1] != Correct then 0 else RightInARow(gs, n - 1) + 1
  }

  /** After graded rounds the current streak is the run of right answers
      that ends them, added to the starting streak when no round broke it;
      the best streak has not shrunk and, once a round was played, is at
      least the current streak; the date is that of the last round. */
  lemma {:induction false} ReplayStreak(st: Stats, gs: seq<Grade>, rounds: seq<RoundInput>, n: nat)
    requires n <= |gs| && n <= |rounds|
    ensures Replay(st, gs, rounds, n).currentStreak ==
            if RightInARow(gs, n) == n then st.currentStreak + n else RightInARow(gs, n)
    ensures Replay(st, gs, rounds, n).bestStreak >= st.bestStreak
    ensures n > 0 ==> Replay(st, gs, rounds, n).bestStreak >= Replay(st, gs, rounds, n).currentStreak
    ensures n > 0 ==> Replay(st, gs, rounds, n).lastPlayed == Some(rounds[n - 1].today)
  {
    if n > 0 {
      ReplayStreak(st, gs, rounds, n - 1);
    }
  }

  class QuizSession {
    var data: QuizData
    var stats: Stats
    var running: bool
    var persisted: QuizData
    const pool: seq<Ref>

    ghost function State(): SessionState
      reads this
    {
      SessionState(data, stats, running, persisted)
    }

    /** The pool is non-empty and designates items of the data; the data's
        streak record, once there is one, is the session's own record; and
        the data file holds the current data. */
    ghost predicate Valid()
      reads this
    {
      |pool| > 0
      && (forall r :: r in pool ==> Resolves(data, r))
      && (data.stats.None? || data.stats == Some(stats))
      && persisted == data
    }

    /** A session over freshly loaded data: the stored streak record, or
        zero streaks when the file has none. */
    constructor (d: QuizData, p: seq<Ref>)
      requires |p| > 0 && forall r :: r in p ==> Resolves(d, r)
      ensures Valid() && pool == p
      ensures State() == SessionState(d, InitialStats(d.stats), true, d)
      ensures d.stats.None? ==> stats == Stats(0, 0, None)
      ensures d.stats.Some? ==> stats == d.stats.value
    {
      data := d;
      stats := InitialStats(d.stats);
      running := true;
      persisted := d;
      pool := p;
    }

    /** The grading step of the loop for the chosen item `r` and the token
        read at the grading prompt. */
    method GradeAnswer(r: Ref, token: string, today: Date)
      requires Valid() && running && r in pool
      modifies this
      ensures Valid()
      ensures State() == Advance(old(State()), r, Classify(token), today)
    {
      if token == "q" || token == "quit" {
        running := false;
      } else {
        var correct := token == "y" || token == "yes";
        data := RecordAnswer(data, r, correct);
        if correct {
          stats := stats.(currentStreak := stats.currentStreak + 1);
          if stats.currentStreak > stats.bestStreak {
            stats := stats.(bestStreak := stats.currentStreak);
          }
        } else {
          stats := stats.(currentStreak := 0);
        }
        stats := stats.(lastPlayed := Some(today));
        assert stats == UpdateStreak(old(stats), correct, today);
        data := data.(stats := Some(stats));
        persisted := data;
      }
    }

    /** One pass of the loop: pick an item of the pool with the given draw,
        read the grading line, grade. */
    method PlayRound(input: RoundInput) returns (k: nat)
      requires Valid() && running
      modifies this
      ensures Valid()
      ensures k < |pool| && Selects(Weights(PoolTallies(old(data), pool)), input.draw, k)
      ensures State() == Advance(old(State()), pool[k], GradeOf(input), input.today)
    {
      k := PickWeighted(PoolTallies(data, pool), input.draw);
      GradeAnswer(pool[k], ReadToken(input.gradeLine), input.today);
    }

    /** The `while (running)` loop over a script of rounds: it stops at the
        first quit or when the script ends, with `Progress` holding from the
        state it began in. `RunScript`, `RunCounts` and `RunStreaks` spell
        out what that says about the rounds, the items and the streaks. */
    method Run(rounds: seq<RoundInput>) returns (graded: nat, ghost picks: seq<Ref>)
      requires Valid() && running
      modifies this
      ensures Valid()
      ensures Progress(old(State()), State(), pool, rounds, graded, picks)
      ensures !(running && graded < |rounds|)
    {
      ghost var start := State();
      graded, picks := 0, [];
      ProgressStart(start, pool, rounds);
      while running && graded < |rounds|
        invariant Valid()
        invariant Progress(start, State(), pool, rounds, graded, picks)
        decreases |rounds| - graded, running
      {
        graded, picks := NextRound(rounds, graded, picks, start);
      }
    }

    /** One pass of the loop of `Run`, on the round `rounds[graded]`. A
        graded round is counted and its pick recorded; a quit stops the loop. */
    method NextRound(rounds: seq<RoundInput>, graded: nat, ghost picks: seq<Ref>, ghost start: SessionState)
      returns (graded': nat, ghost picks': seq<Ref>)
      requires Valid() && running && graded < |rounds|
      requires Progress(start, State(), pool, rounds, graded, picks)
      modifies this
      ensures Valid() && Progress(start, State(), pool, rounds, graded', picks')
      ensures running == (Grades(rounds)[graded] != Quit)
      ensures graded' == if running then graded + 1 else graded
    {
      ghost var before := State();
      var k := PlayRound(rounds[graded]);
      GradesAt(rounds, graded);
      ProgressStep(start, before, State(), pool, rounds, graded, picks, pool[k]);
      if running {
        graded', picks' := graded + 1, picks + [pool[k]];
      } else {
        graded', picks' := graded, picks;
      }
    }
  }

  /** What the loop of `Run` keeps between its passes, from the state
      `start` it began in to the current state `s`, after `graded` graded
      rounds that picked `picks`: the script part, the counters part and the
      streak part. */
  ghost predicate Progress(start: SessionState, s: SessionState, pool: seq<Ref>,
                           rounds: seq<RoundInput>, graded: nat, picks: seq<Ref>)
  {
    graded == |picks|
    && Scripted(Grades(rounds), graded, s.running)
    && (forall r :: r in picks ==> r in pool)
    && Counted(start.data, s.data, picks, Wins(picks, Grades(rounds)))
    && Untouched(start.data, s.data, picks)
    && Recorded(start, s, rounds, graded)
  }

  /** The first `graded` rounds were graded, and a stopped loop stopped on a quit. */
  ghost predicate Scripted(gs: seq<Grade>, graded: nat, running: bool)
  {
    graded <= |gs|
    && (forall j :: 0 <= j < graded ==> gs[j] != Quit)
    && (!running ==> graded < |gs| && gs[graded] == Quit)
  }

  /** Every item's attempt count is its starting count plus the number of
      times it was picked, its right-answer count is its starting count plus
      the number of times it was picked and answered right, and the per-item
      invariant is kept. */
  ghost predicate Counted(start: QuizData, d: QuizData, picks: seq<Ref>, wins: seq<Ref>)
  {
    SameShape(start, d)
    && (forall r :: Resolves(start, r) ==>
          Resolves(d, r) && TallyOf(d, r).asked == TallyOf(start, r).asked + Count(picks, r)
          && TallyOf(d, r).correct == TallyOf(start, r).correct + Count(wins, r))
    && (WellFormed(start) ==> WellFormed(d))
  }

  /** Items differ from their starting records at most in their counters,
      and an item never picked is exactly its starting record. */
  ghost predicate Untouched(start: QuizData, d: QuizData, picks: seq<Ref>)
  {
    OnlyCountersChanged(start, d)
    && (forall i :: 0 <= i < |start.questions| && Ref(QuestionKind, i) !in picks ==>
          d.questions[i] == start.questions[i])
    && (forall i :: 0 <= i < |Reviews(start)| && Ref(ReviewKind, i) !in picks ==>
          Reviews(d)[i] == Reviews(start)[i])
  }

  /** The streak record is the replay of the graded rounds: before any
      round is graded nothing has changed, and afterwards the data holds the
      session's record. */
  ghost predicate Recorded(start: SessionState, s: SessionState, rounds: seq<RoundInput>, graded: nat)
  {
    graded <= |rounds|
    && s.stats == Replay(start.stats, Grades(rounds), rounds, graded)
    && (graded == 0 ==> s.data == start.data)
    && (graded > 0 ==> s.data.stats == Some(s.stats))
  }

  /** A stopped run, as the script saw it: the first `graded` rounds were
      graded and picked items of the pool, and the loop stopped at the first
      quit or at the end of the script. */
  lemma {:induction false} RunScript(start: SessionState, s: SessionState, pool: seq<Ref>,
                                     rounds: seq<RoundInput>, graded: nat, picks: seq<Ref>)
    requires Progress(start, s, pool, rounds, graded, picks) && !(s.running && graded < |rounds|)
    ensures graded == |picks| <= |rounds|
    ensures forall j :: 0 <= j < graded ==> Grades(rounds)[j] != Quit
    ensures s.running <==> graded == |rounds|
    ensures !s.running ==> Grades(rounds)[graded] == Quit
    ensures forall r :: r in picks ==> r in pool
  {
  }

  /** A stopped run, item by item: each item's attempt count has grown by
      the number of graded rounds that picked it and its right-answer count
      by the number of those graded right; no other field of any item
      changed, an item no round picked is as it was, and the per-item
      invariant is kept. The data holds the streak record once a round was
      graded, and is untouched when none was. */
  lemma {:induction false} RunCounts(start: SessionState, s: SessionState, pool: seq<Ref>,
                                     rounds: seq<RoundInput>, graded: nat, picks: seq<Ref>)
    requires Progress(start, s, pool, rounds, graded, picks) && !(s.running && graded < |rounds|)
    ensures SameShape(start.data, s.data) && OnlyCountersChanged(start.data, s.data)
    ensures forall r :: Resolves(start.data, r) ==>
              Resolves(s.data, r) && TallyOf(s.data, r).asked == TallyOf(start.data, r).asked + Count(picks, r)
    ensures forall r :: Resolves(start.data, r) ==>
              TallyOf(s.data, r).correct == TallyOf(start.data, r).correct + Count(Wins(picks, Grades(rounds)), r)
    ensures forall i :: 0 <= i < |start.data.questions| && Ref(QuestionKind, i) !in picks ==>
              s.data.questions[i] == start.data.questions[i]
    ensures forall i :: 0 <= i < |Reviews(start.data)| && Ref(ReviewKind, i) !in picks ==>
              Reviews(s.data)[i] == Reviews(start.data)[i]
    ensures WellFormed(start.data) ==> WellFormed(s.data)
    ensures graded > 0 ==> s.data.stats == Some(s.stats)
    ensures graded == 0 ==> s.data == start.data
  {
  }

  /** A stopped run, streak by streak: the record is that of the graded
      rounds replayed in order. So the current streak is the run of right
      answers that ends them (on top of the starting streak when none was
      wrong), the best streak never shrinks and is at least the current one
      once a round was graded, the date is that of the last graded round,
      and nothing changed when no round was graded. */
  lemma {:induction false} RunStreaks(start: SessionState, s: SessionState, pool: seq<Ref>,
                                      rounds: seq<RoundInput>, graded: nat, picks: seq<Ref>)
    requires Progress(start, s, pool, rounds, graded, picks) && !(s.running && graded < |rounds|)
    ensures s.stats == Replay(start.stats, Grades(rounds), rounds, graded)
    ensures s.stats.currentStreak == if RightInARow(Grades(rounds), graded) == graded
                                     then start.stats.currentStreak + graded
                                     else RightInARow(Grades(rounds), graded)
    ensures s.stats.bestStreak >= start.stats.bestStreak
    ensures graded > 0 || start.stats.bestStreak >= start.stats.currentStreak ==>
              s.stats.bestStreak >= s.stats.currentStreak
    ensures graded > 0 ==> s.stats.lastPlayed == Some(rounds[graded - 1].today)
    ensures graded == 0 ==> s.stats == start.stats
  {
    ReplayStreak(start.stats, Grades(rounds), rounds, graded);
  }

  /** Before the first round nothing has been graded, picked or changed. */
  lemma {:induction false} ProgressStart(start: SessionState, pool: seq<Ref>, rounds: seq<RoundInput>)
    requires start.running
    ensures Progress(start, start, pool, rounds, 0, [])
  {
    var d := start.data;
    assert Wins([], Grades(rounds)) == [];
    forall i | 0 <= i < |d.questions|
      ensures d.questions[i] == d.questions[i].(timesAsked := d.questions[i].timesAsked,
                                                timesCorrect := d.questions[i].timesCorrect)
    {
    }
    forall i | 0 <= i < |Reviews(d)|
      ensures Reviews(d)[i] == Reviews(d)[i].(timesAsked := Reviews(d)[i].timesAsked,
                                              timesCorrect := Reviews(d)[i].timesCorrect)
    {
    }
  }

  /** One graded or quitting round keeps `Progress`. */
  lemma {:induction false} ProgressStep(start: SessionState, s: SessionState, t: SessionState, pool: seq<Ref>,
                     rounds: seq<RoundInput>, graded: nat, picks: seq<Ref>, p: Ref)
    requires Progress(start, s, pool, rounds, graded, picks)
    requires s.running && graded < |rounds| && p in pool && Resolves(s.data, p)
    requires t == Advance(s, p, Grades(rounds)[graded], rounds[graded].today)
    ensures t.running == (Grades(rounds)[graded] != Quit)
    ensures Progress(start, t, pool, rounds, if t.running then graded + 1 else graded,
                     if t.running then picks + [p] else picks)
  {
    var gs := Grades(rounds);
    var g := gs[graded];
    if g == Quit {
      assert t == s.(running := false);
      ScriptStep(gs, graded, false);
    } else {
      GradedStep(start, s, pool, rounds, graded, picks, p);
    }
  }

  /** A round that is graded keeps every loop invariant of `Run`, with one
      more graded round and its pick recorded. */
  lemma {:induction false} GradedStep(start: SessionState, s: SessionState, pool: seq<Ref>,
                                      rounds: seq<RoundInput>, graded: nat, picks: seq<Ref>, p: Ref)
    requires Progress(start, s, pool, rounds, graded, picks)
    requires s.running && graded < |rounds| && p in pool && Resolves(s.data, p)
    requires Grades(rounds)[graded] != Quit
    ensures Progress(start, Advance(s, p, Grades(rounds)[graded], rounds[graded].today), pool, rounds,
                     graded + 1, picks + [p])
  {
    var gs := Grades(rounds);
    var g := gs[graded];
    var today := rounds[graded].today;
    var t := Advance(s, p, g, today);
    ScriptStep(gs, graded, true);
    WinsStep(picks, p, gs);
    CountsAfterRound(start.data, s, p, g, today, picks, Wins(picks, gs));
    UntouchedAfterRound(start.data, s, p, g, today, picks);
    PicksStep(picks, p, pool);
    RecordStep(start, s, rounds, graded, p);
  }

  /** A round of grade `gs[graded]` extends the script part: a quit stops
      the loop there, any other grade counts the round as graded. */
  lemma {:induction false} ScriptStep(gs: seq<Grade>, graded: nat, running: bool)
    requires Scripted(gs, graded, true) && graded < |gs|
    requires running == (gs[graded] != Quit)
    ensures Scripted(gs, if running then graded + 1 else graded, running)
  {
  }

  /** A graded round extends the replay by that round. */
  lemma {:induction false} RecordStep(start: SessionState, s: SessionState, rounds: seq<RoundInput>, graded: nat, p: Ref)
    requires Recorded(start, s, rounds, graded) && graded < |rounds| && Resolves(s.data, p)
    requires Grades(rounds)[graded] != Quit
    ensures Recorded(start, Advance(s, p, Grades(rounds)[graded], rounds[graded].today), rounds, graded + 1)
  {
    var g := Grades(rounds)[graded];
    var t := Advance(s, p, g, rounds[graded].today);
    assert t.stats == UpdateStreak(s.stats, g == Correct, rounds[graded].today);
  }

  lemma {:induction false} PicksStep(picks: seq<Ref>, p: Ref, pool: seq<Ref>)
    requires (forall r :: r in picks ==> r in pool) && p in pool
    ensures forall r :: r in picks + [p] ==> r in pool
  {
  }

  lemma {:induction false} WinsStep(picks: seq<Ref>, p: Ref, gs: seq<Grade>)
    requires |picks| < |gs|
    ensures Wins(picks + [p], gs) == if gs[|picks|] == Correct then Wins(picks, gs) + [p] else Wins(picks, gs)
  {
    assert (picks + [p])[..|picks|] == picks;
    assert Wins(picks, gs) + [] == Wins(picks, gs);
  }

  /** A graded round keeps "every item's counters are its starting counters
      plus its picks and its right answers". */
  lemma {:induction false} CountsAfterRound(start: QuizData, s: SessionState, p: Ref, g: Grade, today: Date,
                                            picks: seq<Ref>, wins: seq<Ref>)
    requires Resolves(s.data, p) && Counted(start, s.data, picks, wins) && g != Quit
    ensures Counted(start, Advance(s, p, g, today).data, picks + [p], if g == Correct then wins + [p] else wins)
  {
    var t := Advance(s, p, g, today);
    var now := picks + [p];
    var won := if g == Correct then wins + [p] else wins;
    assert now[..|now| - 1] == picks;
    assert g == Correct ==> won[..|won| - 1] == wins;
    forall r | Resolves(start, r)
      ensures Resolves(t.data, r) && TallyOf(t.data, r).asked == TallyOf(start, r).asked + Count(now, r)
              && TallyOf(t.data, r).correct == TallyOf(start, r).correct + Count(won, r)
    {
      assert Count(now, r) == Count(picks, r) + (if p == r then 1 else 0);
      assert Count(won, r) == Count(wins, r) + (if p == r && g == Correct then 1 else 0);
    }
  }

  /** A graded round changes at most the counters of the item it picked. */
  lemma {:induction false} UntouchedAfterRound(start: QuizData, s: SessionState, p: Ref, g: Grade, today: Date,
                                               picks: seq<Ref>)
    requires Resolves(s.data, p) && Untouched(start, s.data, picks)
    ensures Untouched(start, Advance(s, p, g, today).data, picks + [p])
  {
    var t := Advance(s, p, g, today);
    forall i | 0 <= i < |start.questions| && Ref(QuestionKind, i) !in picks + [p]
      ensures t.data.questions[i] == start.questions[i]
    {
      assert Ref(QuestionKind, i) !in picks;
    }
    forall i | 0 <= i < |Reviews(start)| && Ref(ReviewKind, i) !in picks + [p]
      ensures Reviews(t.data)[i] == Reviews(start)[i]
    {
      assert Ref(ReviewKind, i) !in picks;
    }
  }

  /** The start of `runQuiz`: build the pool; an empty pool ends the run
      before any round, otherwise the session starts on the loaded data. */
  method Start(d: QuizData, mode: Mode, filter: Option<string>) returns (s: QuizSession?)
    ensures s == null <==> PoolOf(d, mode, filter) == []
    ensures s != null ==> fresh(s) && s.Valid() && s.pool == PoolOf(d, mode, filter)
    ensures s != null ==> s.State() == SessionState(d, InitialStats(d.stats), true, d)
  {
    var pool := BuildPool(d, mode, filter);
    if |pool| == 0 {
      return null;
    }
    PoolResolves(d, mode, filter);
    s := new QuizSession(d, pool);
  }
}
