# Quizzy: quiz session and attempt statistics

Quizzy is an Android quiz app built with Jetpack Compose on Firebase. This project models the
sequential logic inside its screens, with the layout and the Firebase calls taken out.

- **Quiz** (`quiz.dfy`, class `Quiz.QuizSession`): the questions are loaded once, limited to
  five. Clicking an option only stages a choice. "Next"/"Finish Quiz" is enabled only while a
  choice is staged. It scores +1 exactly when the choice equals the question's `correctIndex`.
  It then moves to the next question and clears the choice, or, on the last question, reports
  `(score, questions.size)`. The report is saved as an attempt document `{uid, score, total,
  createdAt}`, or not at all when nobody is signed in.
- **Attempts** (`attempts.dfy`): the stored attempt document, with every field possibly
  absent. Also the `whereEqualTo("uid", …)` query.
- **Progress** (`progress.dfy`): the user's attempts as fetched (at most 50), sorted newest first
  by a stable sort, with their count and best score. Also the percentage divisor guard, the
  "N/A" date branch and the screen's loading/error/empty/list choice.
- **Home** (`home.dfy`): the display name with its default, plus the count and best score over
  all of the user's attempts. A missing score counts as 0.
- **Leaderboard** (`leaderboard.dfy`): the 20 highest-scoring attempts, ranked 1, 2, 3, …, and
  the `shortUid` label.
- **SignUp** and **Login** (`signup.dfy`, `login.dfy`): the ordered field checks, the requests
  they start, the initial profile document and the `isLoading` flag across the asynchronous
  completions.
- **Kotlin** (`kotlin.dfy`): the standard-library behaviour all of the above depends on.
  Strings are sequences of UTF-16 code units, so `length`, `take` and `takeLast` count what
  Kotlin counts. It covers `trim`/`isBlank` with the JVM's whitespace set, `Long.toInt()` as
  32-bit wrap-around, `take`, `maxOfOrNull` and the stable `sortedByDescending`. It also has
  a generic `Filter`. The app never calls `filter` itself: `Filter` gives the shape of the
  store's selecting queries. `whereEqualTo("uid", …)` is `Attempts.WhereUid`.
  `orderBy("score")` dropping unscored documents is inside `Leaderboard.TopAttempts`.
- **Agreement** (`agreement.dfy`): how the screens relate over the same collection. A saved
  attempt is read back unchanged and counted on the home screen. The progress screen agrees
  with the home screen's count and best score up to its 50-attempt fetch.

Store queries are modelled as functions of a snapshot of the collection, given in store order.
`limit(n)` is a take. `orderBy("score", DESCENDING)` drops documents without a score, then
sorts. The clock (`System.currentTimeMillis()`) is a parameter. Each asynchronous listener is a
method of the screen's class, called with the outcome it receives.

`Quiz.ThreeQuestionScenario` drives a session through three questions whose correct options
are 0, 1 and 2. The answers 0, 1, 1 end in `Finished(2, 3)`.

### Behaviour of the code worth knowing

- The quiz uses the first five question documents the store returns, in store order, and
  checks none of them. A question with no options can never be committed. A `correctIndex`
  outside the options can never score.
- An empty question list shows "No questions found" and never starts a session. The last
  commit reports the result itself and does not move the index.
- The leaderboard's order among equal scores is whatever the store returns. The code sets no
  tie-break. The model keeps store order, and its lemmas state only facts that hold for any
  tie-break. Rows are attempts, not users, so one user can hold several ranks.
- The progress query applies `limit(50)` before the local sort. For a user with more than 50
  attempts, the rows need not be the 50 newest, and the best score shown can be lower than the
  home screen's (`Agreement.ProgressBestAgreesWithHome`).
- `doLogin` and `doSignup` also run from the keyboard's Done action, which ignores `isLoading`.
  So the model puts no precondition on them, and a second request can start while one is
  pending.

## Model

| member | source | states |
|---|---|---|
| `Kotlin.LongToInt` | app/src/main/java/com/example/quizzy/ProgressActivity.kt:94 | `toInt()` keeps the value modulo 2^32, and a value that fits in an Int is unchanged |
| `Kotlin.IsBlank` | app/src/main/java/com/example/quizzy/LeaderboardActivity.kt:223 | a text is blank exactly when dropping its leading whitespace leaves nothing |
| `Kotlin.Trim` | app/src/main/java/com/example/quizzy/SignUpActivity.kt:94-95 | the trimmed text is no longer than the input, and when non-empty it starts and ends with non-whitespace |
| `Kotlin.TrimEmptyIffBlank` | app/src/main/java/com/example/quizzy/SignUpActivity.kt:100 | `trim().isEmpty()` holds exactly when the input is empty or all whitespace |
| `Kotlin.TrimIsSlice` | app/src/main/java/com/example/quizzy/LoginActivity.kt:87 | the trimmed text is the input slice between a whitespace prefix and a whitespace suffix |
| `Kotlin.TrimIdempotent` | app/src/main/java/com/example/quizzy/SignUpActivity.kt:94-95 | trimming an already trimmed text changes nothing |
| `Kotlin.Take` | app/src/main/java/com/example/quizzy/QuizActivity.kt:75 | `take(n)` is the prefix of length min(n, size) |
| `Kotlin.TakeLast` | app/src/main/java/com/example/quizzy/LeaderboardActivity.kt:224 | `takeLast(n)` is the suffix of length min(n, length) |
| `Kotlin.MaxOfOrNull` | app/src/main/java/com/example/quizzy/ProgressActivity.kt:94 | null exactly for no elements; otherwise a value some element has, and no element's value is larger |
| `Kotlin.SortedByDescendingPermutes` | app/src/main/java/com/example/quizzy/ProgressActivity.kt:90 | the sorted list has exactly the input's elements, with their multiplicities |
| `Kotlin.SortedByDescendingOrdered` | app/src/main/java/com/example/quizzy/ProgressActivity.kt:90 | the sorted list's keys never increase |
| `Kotlin.SortedByDescendingStable` | app/src/main/java/com/example/quizzy/ProgressActivity.kt:90 | for every key, the elements with that key appear in input order (the sort is stable) |
| `Kotlin.SortedByDescending` | app/src/main/java/com/example/quizzy/ProgressActivity.kt:90 | sorting keeps the number of elements (order, permutation and stability are its three lemmas) |
| `Kotlin.TakeIsSubMultiset` | app/src/main/java/com/example/quizzy/LeaderboardActivity.kt:71 | a take returns only elements of the list, none more often than it occurs there |
| `Kotlin.TakeOfSortedIsTop` | app/src/main/java/com/example/quizzy/LeaderboardActivity.kt:71-72 | after a sort then a take of n, no element left out has a larger key than any element kept |
| `Attempts.WhereUid` | app/src/main/java/com/example/quizzy/ProgressActivity.kt:84-85 | every document the uid query returns belongs to that user |
| `Attempts.WhereUidCounts` | app/src/main/java/com/example/quizzy/HomeActivity.kt:89-90 | the uid query returns each of the user's documents as often as it is stored, and no other document |
| `Attempts.WhereUidSize` | app/src/main/java/com/example/quizzy/HomeActivity.kt:93 | the query's size equals the number of store positions holding the user's documents |
| `Quiz.LoadQuestions` | app/src/main/java/com/example/quizzy/QuizActivity.kt:74-78 | min(5, collection size) questions, a prefix of the collection: all of them when at most 5 exist |
| `Quiz.Points` | app/src/main/java/com/example/quizzy/QuizActivity.kt:157-159 | the points earned never exceed the number of committed answers |
| `Quiz.PointsAppend` | app/src/main/java/com/example/quizzy/QuizActivity.kt:157-159 | committing a choice adds exactly 1 when it equals the question's correctIndex, and 0 otherwise |
| `Quiz.AllCorrectFullMarks` | app/src/main/java/com/example/quizzy/QuizActivity.kt:156-162 | all answers correct give a score equal to the number answered |
| `Quiz.AllWrongScoresZero` | app/src/main/java/com/example/quizzy/QuizActivity.kt:156-162 | all answers wrong give score 0 |
| `Quiz.QuizSession.CanCommit` | app/src/main/java/com/example/quizzy/QuizActivity.kt:168 | when the button is enabled, a question is on screen and the staged choice is one of its options |
| `Quiz.QuizSession.ShowsQuestion` | app/src/main/java/com/example/quizzy/QuizActivity.kt:93-105 | a question is shown only after loading with a non-empty list, and then the index is in bounds |
| `Quiz.QuizSession.Current` | app/src/main/java/com/example/quizzy/QuizActivity.kt:107 | the question on screen is one of the loaded questions |
| `Quiz.QuizSession.constructor` | app/src/main/java/com/example/quizzy/QuizActivity.kt:66-70 | the screen starts loading, with no questions, index 0, no selection and score 0 |
| `Quiz.QuizSession.OnQuestionsLoaded` | app/src/main/java/com/example/quizzy/QuizActivity.kt:77-80 | loading ends with the limited question list and the session invariant holding |
| `Quiz.QuizSession.OnLoadFailed` | app/src/main/java/com/example/quizzy/QuizActivity.kt:81-83 | loading ends with an empty list, so no question is shown and no session starts |
| `Quiz.QuizSession.SelectOption` | app/src/main/java/com/example/quizzy/QuizActivity.kt:137 | clicking option i stages i and changes neither score nor index |
| `Quiz.QuizSession.Commit` | app/src/main/java/com/example/quizzy/QuizActivity.kt:155-168 | only possible with a staged choice; scores +1 exactly on the correct option; advances and clears the choice, or on the last question reports (score, size) without advancing; the index stays in bounds and 0 <= score <= answered <= 5 |
| `Quiz.SaveResult` | app/src/main/java/com/example/quizzy/QuizActivity.kt:187-197 | nothing is written without a signed-in user; otherwise the document holds uid, score, total and the clock reading |
| `Progress.ToAttemptRow` | app/src/main/java/com/example/quizzy/ProgressActivity.kt:29-34 | present fields are kept, and a missing uid, score, total or createdAt reads as "" or 0 |
| `Progress.ToAttemptRows` | app/src/main/java/com/example/quizzy/ProgressActivity.kt:89 | every fetched document yields one row, in the same position |
| `Progress.Fetched` | app/src/main/java/com/example/quizzy/ProgressActivity.kt:84-87 | at most 50 attempts are fetched |
| `Progress.ProgressRows` | app/src/main/java/com/example/quizzy/ProgressActivity.kt:84-90 | the screen gets one row per fetched attempt, so at most 50 |
| `Progress.BestScore` | app/src/main/java/com/example/quizzy/ProgressActivity.kt:94 | 0 for no rows; otherwise the score of some row, and no row scores more |
| `Progress.ProgressRowsSpec` | app/src/main/java/com/example/quizzy/ProgressActivity.kt:84-93 | the rows are min(50, the user's attempt count) of the user's attempts, newest first, a permutation of the fetched ones, with equal timestamps in fetched order |
| `Progress.PercentDivisor` | app/src/main/java/com/example/quizzy/ProgressActivity.kt:219 | the divisor is at least 1, and equals the total when the total is positive |
| `Progress.FormatDateTime` | app/src/main/java/com/example/quizzy/ProgressActivity.kt:246-249 | "N/A" exactly when millis <= 0; otherwise the timestamp goes to the formatter |
| `Progress.ProgressScreen.constructor` | app/src/main/java/com/example/quizzy/ProgressActivity.kt:75-80 | the screen starts loading, with no rows, no error and zero count and best |
| `Progress.ProgressScreen.View` | app/src/main/java/com/example/quizzy/ProgressActivity.kt:166-198 | spinner while loading; then the error, showing the stored message; then the empty notice when there are no rows; otherwise the list |
| `Progress.ProgressScreen.OnAttemptsLoaded` | app/src/main/java/com/example/quizzy/ProgressActivity.kt:88-97 | stores the sorted rows, their count and their best score, and stops loading |
| `Progress.ProgressScreen.OnLoadFailed` | app/src/main/java/com/example/quizzy/ProgressActivity.kt:98-101 | stores the error's message, or the fixed text when it has none, and stops loading |
| `Home.DisplayName` | app/src/main/java/com/example/quizzy/HomeActivity.kt:86 | the profile's name, or "Quizzy User" when it has none |
| `Home.DocScore` | app/src/main/java/com/example/quizzy/HomeActivity.kt:95 | a missing score counts as 0, and a score that fits in an Int counts as itself |
| `Home.AttemptCount` | app/src/main/java/com/example/quizzy/HomeActivity.kt:93 | the count never exceeds the number of stored documents |
| `Home.BestScore` | app/src/main/java/com/example/quizzy/HomeActivity.kt:94-96 | 0 when the user has no attempts; otherwise the score of one of the user's attempts, and none of them scores more |
| `Home.AttemptCountSpec` | app/src/main/java/com/example/quizzy/HomeActivity.kt:89-93 | the attempt count is the number of stored documents whose uid is the user's |
| `Home.BestScoreSpec` | app/src/main/java/com/example/quizzy/HomeActivity.kt:94-96 | 0 without attempts; otherwise the score of one of the user's documents, and none of them scores more |
| `Home.HomeScreen.constructor` | app/src/main/java/com/example/quizzy/HomeActivity.kt:78-80 | before any data arrives: the default name, 0 attempts, best 0 |
| `Home.HomeScreen.OnProfileLoaded` | app/src/main/java/com/example/quizzy/HomeActivity.kt:84-87 | the name becomes the profile's name or the default |
| `Home.HomeScreen.OnAttemptsLoaded` | app/src/main/java/com/example/quizzy/HomeActivity.kt:89-97 | count and best become those derived from all of the user's attempts |
| `Leaderboard.ToLeaderboardRow` | app/src/main/java/com/example/quizzy/LeaderboardActivity.kt:75 | a row keeps the document's uid, score, total and createdAt when present, and a missing one reads as "" or 0 |
| `Leaderboard.LeaderboardRows` | app/src/main/java/com/example/quizzy/LeaderboardActivity.kt:74-76 | one row per returned document, in query order |
| `Leaderboard.TopAttempts` | app/src/main/java/com/example/quizzy/LeaderboardActivity.kt:70-72 | the query returns at most 20 documents, and no more than are stored |
| `Leaderboard.TopAttemptsSpec` | app/src/main/java/com/example/quizzy/LeaderboardActivity.kt:70-73 | the query returns min(20, scored attempts) documents, scores non-increasing, drawn from the scored stored attempts with no attempt returned more often than it is stored, and none left out outscores one returned |
| `Leaderboard.LeaderboardSpec` | app/src/main/java/com/example/quizzy/LeaderboardActivity.kt:70-76 | min(20, scored attempts) rows, scores non-increasing, each from a scored stored attempt with no attempt shown more often than it is stored, and no scored attempt left out outscores a shown row |
| `Leaderboard.Ranked` | app/src/main/java/com/example/quizzy/LeaderboardActivity.kt:161-162 | each row keeps its place; ranks start at 1, rise by exactly 1 and are all distinct |
| `Leaderboard.ShortUid` | app/src/main/java/com/example/quizzy/LeaderboardActivity.kt:222-225 | "Unknown" for a blank uid; the uid itself when non-blank and at most 8 long; otherwise 11 units: the first 4, "...", the last 4 |
| `Leaderboard.ShortUidShape` | app/src/main/java/com/example/quizzy/LeaderboardActivity.kt:222-225 | the label is never blank and never longer than 11 |
| `Leaderboard.ShortUidIdempotent` | app/src/main/java/com/example/quizzy/LeaderboardActivity.kt:222-225 | abbreviating a label again changes nothing |
| `SignUp.Message` | app/src/main/java/com/example/quizzy/SignUpActivity.kt:98-114 | every failed check has a non-empty toast |
| `SignUp.MessagesDistinct` | app/src/main/java/com/example/quizzy/SignUpActivity.kt:98-114 | different failed checks show different toasts |
| `SignUp.ValidateSignup` | app/src/main/java/com/example/quizzy/SignUpActivity.kt:93-116 | the first failing check, in order: blank name, blank email, password under 6 units (6 passes), mismatched confirmation; accepted exactly when all pass, with the trimmed name and email and the raw password |
| `SignUp.AcceptedRequestIsClean` | app/src/main/java/com/example/quizzy/SignUpActivity.kt:94-119 | an accepted request has a non-empty trimmed name and email, and a password of at least 6 units equal to its confirmation |
| `SignUp.InitialProfile` | app/src/main/java/com/example/quizzy/SignUpActivity.kt:138-145 | the profile holds the uid, trimmed name and email, the clock reading, and totalQuizzes = bestScore = 0 |
| `SignUp.SignUpScreen.constructor` | app/src/main/java/com/example/quizzy/SignUpActivity.kt:82 | the form starts not loading |
| `SignUp.SignUpScreen.DoSignup` | app/src/main/java/com/example/quizzy/SignUpActivity.kt:93-119 | loading starts exactly when all checks pass; a failed check starts nothing |
| `SignUp.SignUpScreen.OnCreateComplete` | app/src/main/java/com/example/quizzy/SignUpActivity.kt:120-146 | a failure or a missing uid stops loading with its toast; success yields the initial profile to write |
| `SignUp.SignUpScreen.OnProfileSaved` | app/src/main/java/com/example/quizzy/SignUpActivity.kt:147-163 | whether the profile write succeeds or fails, loading stops and the user goes on to the home screen |
| `Login.ValidateLogin` | app/src/main/java/com/example/quizzy/LoginActivity.kt:86-93 | refused exactly when the email is blank or the password is empty (a whitespace password passes); otherwise the trimmed email and the raw password |
| `Login.LoginScreen.constructor` | app/src/main/java/com/example/quizzy/LoginActivity.kt:75 | the form starts not loading |
| `Login.LoginScreen.DoLogin` | app/src/main/java/com/example/quizzy/LoginActivity.kt:86-96 | loading starts exactly when the check passes |
| `Login.LoginScreen.OnSignInComplete` | app/src/main/java/com/example/quizzy/LoginActivity.kt:97-109 | loading stops on success and on failure; only success goes to the home screen |
| `Agreement.SavedAttemptIsCounted` | app/src/main/java/com/example/quizzy/QuizActivity.kt:187-197 | a saved attempt adds one to its user's home count and leaves other users' counts unchanged |
| `Agreement.SavedAttemptRaisesBest` | app/src/main/java/com/example/quizzy/HomeActivity.kt:94-96 | after a save, the home best is at least the new score and at least the previous best |
| `Agreement.SavedAttemptReadsBack` | app/src/main/java/com/example/quizzy/ProgressActivity.kt:89 | the progress screen reads a saved attempt back with the saved uid, score, total and time |
| `Agreement.FinishedTotalIsDivisor` | app/src/main/java/com/example/quizzy/ProgressActivity.kt:219 | a finished quiz's total (1 to 5) is used as the percentage divisor unchanged |
| `Agreement.ProgressCountAgreesWithHome` | app/src/main/java/com/example/quizzy/ProgressActivity.kt:86 | the progress count is the home count capped at 50 |
| `Agreement.RowsKeepScores` | app/src/main/java/com/example/quizzy/ProgressActivity.kt:94 | a progress row's score equals the score the home screen uses for the same document |
| `Agreement.ProgressBestAgreesWithHome` | app/src/main/java/com/example/quizzy/ProgressActivity.kt:86 | the progress best never exceeds the home best, and equals it when the user has at most 50 attempts |
| `Agreement.InitialProfileMatchesNoAttempts` | app/src/main/java/com/example/quizzy/SignUpActivity.kt:143-144 | a new profile's statistics are those derived from an empty attempt history |

## Left out

- Compose layout, theming, cards and icons; `remember`/`LaunchedEffect` plumbing; the splash screen in `MainActivity.kt`.
- Firebase Auth and Firestore themselves. Query results are snapshots in store order. `toObject` is assumed to succeed on well-formed documents. The outcome of the attempt write in `saveResult` is ignored by the code and not modelled.
- The order in which asynchronous listeners run. Each listener is a separate method, and any interleaving a caller chooses is allowed.
- The percentage itself, which uses `Double` division and truncation. Only its divisor guard is modelled.
- Date formatting with `SimpleDateFormat` beyond the `millis <= 0` branch. The clock is a parameter. Toast display and Intent navigation are reduced to returned texts and a `goHome` flag.
- The redirects to or from the login screen in `onCreate`, which depend on the current user. The password-visibility toggles.
- Quiz.QuizSession.Commit: it requires that the session has not finished, so a second tap on "Finish Quiz" reaching the screen before the activity closes is not modelled.
- Quiz.QuizSession.SelectOption: it requires the index of an existing option, because the screen only has cards for those, and that the session has not finished (the same closing-activity window as the line for Commit).
- Leaderboard.LeaderboardSpec: it does not state the order of equal scores, because the store decides it and the code sets none.
- The home screen's profile read has no failure listener in the code; on failure the default name simply stays.
