/** The command line of the quiz: the first argument, lower-cased, picks
    the stats screen, one of the three quiz modes, or the usage text. */
module Cli {
  import opened Text
  import opened QuizModel
  import opened Pool
  import opened Report
  import opened Session
  import opened Grading

  datatype Command = ShowStats | Quiz(mode: Mode, filter: Option<string>) | Usage

  predicate IsStats(c: string)   { c == "stats" || c == "s" }
  predicate IsCode(c: string)    { c == "code" || c == "c" || c == "cr" }
  predicate IsBiz(c: string)     { c == "biz" || c == "b" || c == "q" }

  /** The dispatch on `args[0]?.toLowerCase()`. A missing or empty first
      argument is falsy and starts the full quiz; `help` shows the usage; a
      word that is no keyword starts the full quiz filtered by that word,
      lower-cased. Only the business-logic mode takes a second argument as
      its filter; the code-review mode takes none. */
  function Dispatch(args: seq<string>): (c: Command)
    ensures c == ShowStats <==> |args| > 0 && IsStats(ToLower(args[0]))
    ensures c == Quiz(CodeReviewsOnly, None) <==> |args| > 0 && IsCode(ToLower(args[0]))
    ensures (c.Quiz? && c.mode == QuestionsOnly) <==> |args| > 0 && IsBiz(ToLower(args[0]))
    ensures c.Quiz? && c.mode == QuestionsOnly ==> c.filter == if |args| > 1 then Some(args[1]) else None
    ensures c == Usage <==> |args| > 0 && ToLower(args[0]) == "help"
    ensures c == Quiz(All, None) <==> args == [] || args[0] == ""
    ensures (c.Quiz? && c.mode == All && c.filter.Some?) <==>
            |args| > 0 && args[0] != "" && ToLower(args[0]) != "help"
            && !IsStats(ToLower(args[0])) && !IsCode(ToLower(args[0])) && !IsBiz(ToLower(args[0]))
    ensures c.Quiz? && c.mode == All && c.filter.Some? ==> c.filter == Some(ToLower(args[0]))
  {
    if args == [] then Quiz(All, None)
    else
      var command := ToLower(args[0]);
      assert command == "" <==> args[0] == "";
      if IsStats(command) then ShowStats
      else if IsCode(command) then Quiz(CodeReviewsOnly, None)
      else if IsBiz(command) then Quiz(QuestionsOnly, if |args| > 1 then Some(args[1]) else None)
      else if command != "" && command != "help" then Quiz(All, Some(command))
      else if command == "" then Quiz(All, None)
      else Usage
  }

  /** The letter case of the first argument does not matter. */
  lemma {:induction false} DispatchIgnoresCase(args: seq<string>)
    requires |args| > 0
    ensures Dispatch(args[0 := ToLower(args[0])]) == Dispatch(args)
  {
    ToLowerIdempotent(args[0]);
    var lowered := args[0 := ToLower(args[0])];
    assert lowered[0] == ToLower(args[0]);
    assert |args[0]| == |ToLower(args[0])|;
  }

  /** A system word on the command line filters the full quiz to the items
      whose system or category contains it, ignoring case: `quiz Pay` and
      `quiz pay` build the same pool. */
  lemma {:induction false} SystemWordFilters(word: string, d: QuizData)
    requires word != [] && ToLower(word) != "help"
    requires !IsStats(ToLower(word)) && !IsCode(ToLower(word)) && !IsBiz(ToLower(word))
    ensures Dispatch([word]) == Quiz(All, Some(ToLower(word)))
    ensures forall r :: r in PoolOf(d, All, Some(ToLower(word))) <==> r in PoolOf(d, All, Some(word))
  {
    ToLowerIdempotent(word);
    forall r
      ensures r in PoolOf(d, All, Some(ToLower(word))) <==> r in PoolOf(d, All, Some(word))
    {
      PoolMembers(d, All, Some(ToLower(word)), r);
      PoolMembers(d, All, Some(word), r);
    }
  }

  /** The script's top level on the loaded data `d`: the stats screen shows
      the report of `d`; a quiz command starts a session on the pool its
      mode and filter select, or none when that pool is empty; the usage
      text does neither. */
  method Launch(args: seq<string>, d: QuizData) returns (report: Option<StatsReport>, session: QuizSession?)
    ensures Dispatch(args) == ShowStats ==> report == Some(StatsOf(d)) && session == null
    ensures Dispatch(args) == Usage ==> report == None && session == null
    ensures Dispatch(args).Quiz? ==> report == None
    ensures Dispatch(args).Quiz? ==>
              var c := Dispatch(args);
              (session == null <==> PoolOf(d, c.mode, c.filter) == [])
              && (session != null ==> fresh(session) && session.Valid() && session.pool == PoolOf(d, c.mode, c.filter)
                                      && session.State() == SessionState(d, InitialStats(d.stats), true, d))
  {
    var c := Dispatch(args);
    match c
    case ShowStats =>
      report, session := Some(StatsOf(d)), null;
    case Usage =>
      report, session := None, null;
    case Quiz(mode, filter) =>
      report := None;
      session := Start(d, mode, filter);
  }
}
