# Trivia quiz — a Dafny model

This project models `trivia/quiz.ts`, a command-line trivia quiz. The quiz
keeps a JSON file of business-logic questions and code-review snippets. It
picks items by a weighted draw that favours items asked rarely and missed
often. It grades each answer as right, wrong or quit. It updates the item's
counters and a streak record, and it saves the whole file after every graded
round. A `stats` command prints per-kind totals, attempts, rounded accuracy,
the streaks and the distinct systems.

The modules follow the program's parts:

- `Text` (`text.dfy`): ECMAScript `trim`, `toLowerCase` and `includes`, the string operations the quiz depends on.
- `QuizModel` (`model.dfy`): the file's records, and `Ref`, a handle on one item of the data. The pool holds `Ref`s, so a counter update made through the pool lands in the data, as the source's shared object references do.
- `Grading` (`grading.dfy`): how a grading line is read and classified, and the streak update.
- `Selector` (`selector.dfy`): `pickWeighted`, with its weight formula and its subtracting walk as a `while` loop.
- `Pool` (`pool.dfy`): building the pool from a mode and a filter. A specification function states the pool, and a method builds it with one filtering loop per list.
- `Report` (`report.dfy`): the figures of `printStats`.
- `Session` (`session.dfy`): the session loop. `Advance` specifies one round. The class `QuizSession` holds the state the source mutates in place: the data, the streak record, the `running` flag and the last saved data.
- `Cli` (`cli.dfy`): the dispatch on the first command-line argument, and the top level that starts a session or the stats screen.

Some behaviour of `quiz.ts` that the model keeps as written:

- The prompt shown after a graded round (`quiz.ts:225`) offers "q to quit", but its reply is discarded. A `q` typed there does not end the session, and the model's rounds carry no such reply.
- Closing the input stream does not end the loop: `quiz.ts` has no handler for it. The model's rounds are a finite script.
- An empty first argument is falsy, so it starts the unfiltered full quiz, the same as no argument.
- A word that is not a keyword becomes the filter in its lower-cased form.

## Model

| member | source | states |
|---|---|---|
| Text.TrimStart | trivia/quiz.ts:130 | the result is the longest suffix of the line that does not start with white space; everything dropped is white space |
| Text.TrimEnd | trivia/quiz.ts:130 | the result is the longest prefix that does not end with white space; everything dropped is white space |
| Text.TrimIgnoresPadding | trivia/quiz.ts:130 | trimming a word padded on both sides by white space gives back exactly the word |
| Text.ToLower | trivia/quiz.ts:130 | same length; every character is replaced by its lower case, and only upper-case letters change |
| Text.ContainsIff | trivia/quiz.ts:147 | `includes` holds exactly when the substring occurs at some position of the string |
| Grading.Classify | trivia/quiz.ts:204-207 | quit exactly for `q`/`quit`; correct exactly for `y`/`yes`; incorrect exactly for every other token, the empty one and `n` included |
| Grading.ClassifyIgnoresPaddingAndCase | trivia/quiz.ts:130 | surrounding white space on a grading word does not change its grade |
| Grading.UpdateStreak | trivia/quiz.ts:209-221 | a right answer extends the current streak by one and a wrong one resets it to 0; the best streak becomes the larger of itself and the new current streak, so it never shrinks and is never below the current streak; it grows only on a right answer, to the current streak; the date is set |
| QuizModel.RecordAnswer | trivia/quiz.ts:208-210 | the chosen item's `times_asked` grows by one and its `times_correct` grows by one exactly when the answer was right; every other item and every other field is unchanged; the per-item invariant `times_correct <= times_asked` is kept |
| Selector.Weight | trivia/quiz.ts:73-77 | for an item with `times_correct <= times_asked` the weight lies in (0, 2.5]; an unseen item weighs exactly 2.5 and an item already asked at most 2 |
| Selector.WeightsPositive | trivia/quiz.ts:73-77 | every weight of a pool of valid items is strictly positive, so no item is excluded from the pick |
| Selector.UnseenOutweighsSeen | trivia/quiz.ts:74-76 | any item already asked weighs less than an item never asked |
| Selector.MissesRaiseWeight | trivia/quiz.ts:75 | of two items asked equally often, the one answered right fewer times weighs more |
| Selector.Walk | trivia/quiz.ts:82-86 | returns the index where the subtracting walk stops: every earlier prefix sum falls short of the draw, and the prefix through the index reaches the draw, unless the index is the last one, taken as fallback |
| Selector.PickWeighted | trivia/quiz.ts:72-87 | returns an index that the walk over the pool's weights selects for the draw |
| Selector.SelectsIff | trivia/quiz.ts:79-86 | with positive weights and a draw in [0, total), index `k` is selected exactly when the draw lies in `k`'s slice of width `weight[k]`, so each item is picked in proportion to its weight and the fallback is never needed in exact arithmetic |
| Pool.BuildPool | trivia/quiz.ts:142-159 | the matching questions followed by the matching code reviews are exactly the pool that `PoolOf` specifies |
| Pool.KeepMatching | trivia/quiz.ts:146-157 | the filtering loop over one list yields exactly the handles `Kept` specifies: the items whose field passes the filter, in file order |
| Pool.KeptMembers | trivia/quiz.ts:146-148 | a handle survives filtering exactly when its item's field contains the filter, ignoring case |
| Pool.PoolMembers | trivia/quiz.ts:144-159 | a question is in the pool exactly when the mode takes questions and its `system` passes the filter; a code review is in it exactly when the mode takes code reviews and its category passes the filter |
| Pool.PoolResolves | trivia/quiz.ts:142-159 | every handle in the pool designates an item of the data |
| Pool.PoolOrdered | trivia/quiz.ts:142-159 | questions come before code reviews, and within each kind file order is kept with no item twice |
| Pool.PoolUnfiltered | trivia/quiz.ts:144-158 | with no active filter (absent or empty) the pool is exactly every question in file order (if the mode takes questions) followed by every code review in file order (if the mode takes code reviews) |
| Pool.AbsentReviewsGiveNothing | trivia/quiz.ts:152-158 | a file without `code_reviews` gives an empty code-review pool, and the full pool then holds only questions |
| Pool.PayMatchesPayments | trivia/quiz.ts:147 | the filter `pay` matches the system `Payments` |
| Report.AttemptedAtMostTotal | trivia/quiz.ts:98-99 | the attempted items are at most all items |
| Report.NoAttemptsIff | trivia/quiz.ts:99-101 | no item was attempted exactly when the summed attempts are zero |
| Report.CorrectAtMostAsked | trivia/quiz.ts:100-101 | with the per-item invariant, the summed right answers never exceed the summed attempts |
| Report.AccuracyRounds | trivia/quiz.ts:110 | the accuracy is `100 * correct / asked` rounded to the nearest integer with halves rounded up, and is at most 100 when `correct <= asked` |
| Report.Summarize | trivia/quiz.ts:98-114 | per kind: the total is the item count, and the attempted count, the summed right answers and the summed attempts are those of the items; attempted is at most the total and is zero exactly when nothing was asked; the accuracy is 0 when nothing was asked and is otherwise the rounded percentage; it is at most 100 for valid items |
| Report.SummarizeExample | trivia/quiz.ts:98-110 | items asked 0, 4 and 1 times and answered right 0, 2 and 1 times give 2 attempted, 5 attempts, 3 right and 60% |
| Report.Dedup | trivia/quiz.ts:119 | `[...new Set(s)]` holds exactly the values of `s`, each once |
| Report.StatsOf | trivia/quiz.ts:93-123 | each kind is summarised on its own, with an absent code-review list counted as empty; the streaks are the stored ones, or 0 without a record; the systems are exactly the questions' systems, each listed once |
| Session.Advance | trivia/quiz.ts:204-223 | a quit stops the loop and changes nothing else. A graded round adds one attempt to the chosen item, and one right answer exactly when it was right. It leaves every other item alone, applies the streak rules, stores the record in the data and saves the data. It keeps the per-item invariant |
| Session.QuizSession.constructor | trivia/quiz.ts:171-172 | a running session over the loaded data, with the stored streak record or zero streaks |
| Session.QuizSession.GradeAnswer | trivia/quiz.ts:204-223 | the in-place grading step produces exactly the state `Advance` specifies and keeps the session invariant (stats record shared with the data, data saved) |
| Session.QuizSession.PlayRound | trivia/quiz.ts:176-223 | one pass of the loop: the item is one the weighted walk selects from the current counters, and the new state is `Advance` with the grade of the trimmed, lower-cased grading line |
| Session.QuizSession.Run | trivia/quiz.ts:171-227 | the loop stops at the first quit or when the input ends, in a state where the loop invariant `Progress` holds from the state it began in; the three lemmas below spell it out. Which item each round picks is stated per round by `PlayRound` |
| Session.RunScript | trivia/quiz.ts:171-207 | after the loop, the rounds before the stop were all graded, the loop stopped at the first quit or at the end of the script, and every pick is an item of the pool |
| Session.RunCounts | trivia/quiz.ts:208-223 | after the loop, every item's `times_asked` has grown by the number of graded rounds that picked it and its `times_correct` by the number of those graded right; no other field of any item changed, an item no round picked is as loaded, and the per-item invariant is kept; once a round was graded the data holds the session's streak record, and with no graded round (an immediate quit) the data is unchanged |
| Session.RunStreaks | trivia/quiz.ts:209-222 | after the loop, the streak record is that of the graded rounds replayed in order through the streak rules: the current streak is the final run of right answers (added to the starting streak when no answer was wrong), the best streak never shrinks and is at least the current one once a round was graded, the date is that of the last graded round, and nothing changed when no round was graded |
| Session.ReplayStreak | trivia/quiz.ts:209-221 | replaying graded rounds gives the current streak as the final run of right answers (on top of the starting streak when none was wrong), a best streak no smaller than before and at least the current one, and the last round's date |
| Session.ProgressStart | trivia/quiz.ts:171-172 | before the first round the loop invariant holds: nothing graded, picked or changed |
| Session.RecordStep | trivia/quiz.ts:209-222 | a graded round extends the streak replay by that round, and the data holds the new record |
| Session.CountsAfterRound | trivia/quiz.ts:208-210 | one graded round preserves "attempt count = starting count + number of picks" and "right-answer count = starting count + number of picks graded right" |
| Session.UntouchedAfterRound | trivia/quiz.ts:208-210 | one graded round preserves "only counters differ from the loaded records, and an unpicked item is as loaded" |
| Session.GradedStep | trivia/quiz.ts:204-223 | a round graded right or wrong keeps every loop invariant of `Run` with one more graded round and its pick recorded |
| Session.QuizSession.NextRound | trivia/quiz.ts:176-227 | one pass of the loop keeps the loop invariant; it stops the loop exactly on a quit and otherwise counts one more graded round |
| Session.ProgressStep | trivia/quiz.ts:171-227 | one graded or quitting round keeps every loop invariant of `Run`, and the loop goes on exactly when the round was not a quit |
| Session.GradesAt | trivia/quiz.ts:202-207 | the grade of each scripted round is that of its trimmed, lower-cased line |
| Session.Start | trivia/quiz.ts:142-172 | no session starts exactly when the pool for the mode and filter is empty; otherwise the session runs on that pool and the loaded data |
| Cli.Dispatch | trivia/quiz.ts:233-246 | `stats`/`s` show the stats; `code`/`c`/`cr` start the unfiltered code-review quiz; `biz`/`b`/`q` start the question quiz, filtered by the second argument if there is one; `help` shows the usage; a missing or empty argument starts the unfiltered full quiz; any other word starts the full quiz filtered by that word, lower-cased. Each case holds in both directions |
| Cli.DispatchIgnoresCase | trivia/quiz.ts:234 | the letter case of the first argument does not change the command |
| Cli.SystemWordFilters | trivia/quiz.ts:242-243 | a non-keyword word filters the full quiz, and the lower-cased filter selects the same items as the word as typed |
| Cli.Launch | trivia/quiz.ts:134-140 | the stats command yields the report of the data and no session; a quiz command yields a session exactly when its pool is non-empty; the usage text yields neither |

## Left out

- File I/O and JSON (`loadData`, `saveData`, the missing-file exit with status 1, parse failures): the data is a parameter. A save is modelled as the `persisted` field taking the current data.
- Terminal I/O (readline, `clearScreen`, ANSI colours, the item and answer rendering, the feedback lines, the usage text, the session summary line): these are output only. The reveal prompt's reply and the post-round prompt's reply are discarded by the source, so rounds do not carry them.
- `printStats` prints the code-review line only when that list is non-empty, and the systems line only when there are systems. These are display choices; `StatsOf` computes every figure.
- `Selector.PickWeighted`: takes the draw already scaled to the total weight (`Math.random() * totalWeight`). It does not model the random source or the multiplication.
- Weights are exact reals, not IEEE doubles. The accuracy is `Math.round` computed exactly on integers. The fallback to the last item, which only rounding can trigger, is kept in `Selector.Walk`.
- The date of a round is a parameter (`new Date().toISOString().split("T")[0]`).
- `toLowerCase` is modelled on ASCII letters only. Other scripts' case mappings are not modelled.
- A code review's category is one of the five values the file format names, held as an enumeration. A stored category in another letter case, such as `Database`, which the filter would lower-case before matching (`quiz.ts:155`), cannot be represented.
- Counters are unbounded naturals. A JSON file with negative or fractional counters is not modelled.
- The async/await structure and the input stream closing mid-session are not modelled; the session runs over a finite script of rounds.
