# Quiz editor and player, modelled in Dafny

A browser quiz tool with two pages. The editor page (`create.js`) keeps a list of quizzes and their multiple-choice questions in a stored document `{ quizzes, currentId }`. The player page (`play.js`) plays the current quiz. Each question gets a countdown timer. A correct answer earns a speed-weighted score. After the last question, an end screen is shown.

This project models both pages' logic. DOM, storage and scheduling are left out:

- `wrappers.dfy`: `Option`, for JavaScript's `null`/`undefined`.
- `quizzes.dfy` (module `Quizzes`): the stored document as datatypes (`Quiz`, `Question`, `Choice`, `Store`). It also has JavaScript truthiness for numeric and text fields, `find`/`findIndex` by id (`IndexOf`), `getCurrentQuiz` (`CurrentQuizIndex`), and the start-up repair both pages run (`Normalise`).
- `text.dfy` (module `Text`): `String.prototype.trim` and `escapeHtml`. It proves a round trip through an entity decoder.
- `scoring.dfy` (module `Scoring`): `computeScoreForQuestion` as pure functions over `real`. `Math.round(x)` is modelled as `Floor(x + 0.5)`.
- `playback.dfy` (module `Playback`): the playback engine as the class `PlaySession`. Its fields are the page's module-level state (`currentIndex`, `timeLeft`, `timeLimit`, `totalScore`, `answered`, and whether `timerInterval` is set). The methods are `startTimer` and its tick, `clearTimer`, `renderQuestion`, `onAnswerSelected`, `onTimeExpired`, the 1.2 s advance and `showEndScreen`. The class keeps a ghost phase (`NoQuestions`, `Awaiting`, `Resolved`, `Finished`) and a ghost log of finalised questions and their awards. `Valid()` states the invariant: each question is finalised at most once, in order, and `totalScore` is the sum of the logged awards.
- `editor.dfy` (module `Editing`): the editor's handlers as methods of the class `Editor`. Its fields are `store.quizzes`, `store.currentId` and `editingId`. Form values and `confirm` answers are parameters. Each handler's effect is stated with the list operations it uses (`RemoveAt` for `splice(i, 1)`, `InsertAfter` for `splice(i + 1, 0, x)`, sequence update for `questions[i] = qobj`, `ApplyAll` for the apply-to-all loop). The module also holds the save rule, `AcceptsQuestion`. `Valid()` says that the open question, if any, belongs to the current quiz.

Modelling choices:

- Time is counted in ticks of 200 ms. `timeLeft` holds `5 * timeLimit` ticks when a question starts, and each tick subtracts one.
- A numeric JSON field is `Absent | Num(x)`. `Absent` covers `undefined`, `null` and NaN: NaN is falsy for `||`, and JSON stores it as `null`. The `||` chains (`Tmax`, the timer limit, the save-time `timeLimit`) skip `Num(0)`. The `typeof === 'number'` chains (`basePoints`, `bonusPoints`) keep it.
- The timer's limit (`TimerLimit`: floored, at least 1) and the scoring `Tmax` (`ScoringTime`: neither floored nor clamped) are separate functions, as in the source.
- A missing text field is modelled as `""`, because the source only tests text fields for truthiness.
- The question field `type` is called `kind`, because `type` is a Dafny keyword.
- Fresh ids (`uid`, `Math.random`) are parameters, required to be non-empty and unused.

Details of the source that the model keeps:

- `basePoints` and `bonusPoints` are chosen with `typeof === 'number'` tests (play.js:77-78), so a stored 0 is kept and does not fall through to the quiz value or the default.
- `onTimeExpired` sets `answered` before it checks that the current question exists (play.js:216-219).
- The speed bonus is the bonus times the fraction of time left (play.js:80-81). So the award grows with the remaining time only when the bonus is non-negative, and `AwardMonotone` states that condition.

## Model

| member | source | states |
|---|---|---|
| Quizzes.IndexOf | create.js:186 | the first position holding the id, or none exactly when the id is absent |
| Quizzes.CurrentQuizIndex | create.js:48-51 | a quiz is found exactly when `currentId` is set and some quiz has it; the result is the first such quiz |
| Quizzes.Normalise | create.js:410-417 | after start-up the list is non-empty and `currentId` names a quiz in it; a non-empty loaded list is kept, with its current id when that is set and names a quiz, and otherwise with the first quiz's id; an empty or missing list becomes the single fallback quiz, which is then current |
| Quizzes.NewQuiz | create.js:167-175 | a new quiz has the given id and title, no questions, and a default time of 20 s, which is truthy |
| Text.Trim | create.js:237-240 | the result is the slice of the input between its leading whitespace and a tail of only whitespace; it neither starts nor ends with whitespace, and is empty exactly when the input is all whitespace |
| Text.TrimIdempotent | create.js:268 | trimming a trimmed string changes nothing |
| Text.EscapeHtml | create.js:129 | null or empty input gives ""; the output never contains `<`, `>`, `"` or `'` |
| Text.EscapeText | create.js:129 | the output is at least as long as the input and contains no `<`, `>`, `"` or `'` |
| Text.EscapeRoundTrip | create.js:129 | decoding the five entities in the escaped text gives the input back, so each character maps to its own entity |
| Text.EscapePlainText | create.js:129 | text without `& < > " '` is left unchanged |
| Text.EscapeConcat | create.js:129 | escaping is character by character: it distributes over concatenation |
| Scoring.Round | play.js:81-82 | `Math.round`: the unique integer in (x - 0.5, x + 0.5] |
| Scoring.BasePoints | play.js:77 | the question's numeric `basePoints` if present, else the quiz's, else 500 |
| Scoring.BonusPoints | play.js:78 | the question's numeric `bonusPoints` if present, else the quiz's, else 500 |
| Scoring.ScoringTime | play.js:76 | Tmax is never 0; it is the question's truthy time, else the quiz's truthy default, else the timer's non-zero limit, else 20 |
| Scoring.SpeedBonus | play.js:80-81 | with Tmax <= 0 the speed bonus is 0 |
| Scoring.SpeedBonusWithinBonus | play.js:79-81 | a non-negative bonus gives a speed bonus between 0 and round(bonus) |
| Scoring.Award | play.js:79-83 | the award is never negative |
| Scoring.ClampRemaining | play.js:79 | the remaining time is clamped into [0, Tmax]: it equals the input in range, Tmax when the input is at least a non-negative Tmax, and 0 when the input or Tmax is at most 0 |
| Scoring.ComputeScoreForQuestion | play.js:74-84 | the award is never negative, whatever the points, Tmax or remaining time |
| Scoring.AwardMonotone | play.js:79-82 | for a fixed non-negative bonus, more remaining time never gives a smaller award |
| Scoring.SpeedBonusMonotone | play.js:79-81 | the rounded speed bonus does not decrease with the remaining time when the bonus is non-negative |
| Scoring.AwardWithoutSpeedBonus | play.js:80-83 | with Tmax <= 0, or no time left, only max(0, round(base)) is awarded |
| Scoring.AwardAtFullTime | play.js:79-83 | with the whole Tmax left the award is max(0, round(base) + round(bonus)) |
| Scoring.AwardBetweenBaseAndFull | play.js:77-83 | with non-negative points and positive Tmax the award lies between round(base) and round(base) + round(bonus) |
| Scoring.FallbackChains | play.js:76-78 | a numeric 0 base is kept, an absent bonus falls back to 500, and a 0 question time limit falls through to the quiz default |
| Scoring.WorkedValues | play.js:74-84 | with Tmax 20, base 500 and bonus 500: 20 s left gives 1000, 10 s gives 750, 0 s gives 500 |
| Playback.TimerLimit | play.js:48 | the timer limit is at least 1, is the floor of a limit of at least 1, is 1 for any other non-zero limit below 1, and is 20 for a 0 limit |
| Playback.QuestionTime | play.js:161 | the limit handed to the timer is never 0: the question's truthy time, else the quiz's truthy default, else 20 |
| Playback.ScoringTimeIsQuestionTime | play.js:76 | the scoring Tmax of a question equals the limit its timer was started with |
| Playback.IsCorrectChoice | play.js:182-184 | a choice counts as correct exactly when its index is in range and that choice is marked correct, so a question without a correct choice never awards points |
| Playback.CeilSeconds | play.js:70 | the whole seconds shown are the ceiling of ticks / 5 |
| Playback.RemainingSeconds | play.js:192 | the seconds credited to an answer are non-negative and, for a non-negative count, the ceiling of ticks / 5 |
| Playback.BarFraction | play.js:69 | the bar fraction lies in [0, 1] and, in range, is exactly time left over time limit |
| Playback.MediaWidget | play.js:105-128 | no widget for empty or missing media; video and audio exactly by their data-URI prefix; anything else an image |
| Playback.PlaySession.constructor | play.js:268-281 | the session plays the current quiz of the repaired document with score 0; with no questions no timer runs, otherwise question 0 is timed with its limit |
| Playback.PlaySession.ClearTimer | play.js:64-66 | afterwards no timer runs, whether or not one ran before |
| Playback.PlaySession.StartTimer | play.js:46-62 | `timeLimit = max(1, floor(limit or 20))`, `timeLeft` is the full limit, and the timer runs |
| Playback.PlaySession.RenderQuestion | play.js:86-162 | clears `answered`; with no questions no timer starts; otherwise the index is clamped into [0, len-1] and that question's limit is timed |
| Playback.PlaySession.Tick | play.js:51-61 | each tick strictly lowers `timeLeft`; on reaching 0 the timer stops and the question is finalised once, with no award |
| Playback.PlaySession.OnTimeExpired | play.js:214-231 | an already finalised question is left alone; an awaited one is finalised with no change to the score |
| Playback.PlaySession.OnAnswerSelected | play.js:174-212 | ignored once finalised or without a question; otherwise stops the timer, finalises the question once, and adds exactly the award for the whole seconds left on a correct choice, nothing on a wrong one |
| Playback.PlaySession.Advance | play.js:208-211 | after a finalisation the next question is rendered and timed, or after the last one the end screen is reached; the score is unchanged |
| Playback.PlaySession.ShowEndScreen | play.js:237-238 | the end screen stops the timer, and in the finished phase no tick or score change can follow |
| Playback.PlaySession.TimerDisplay | play.js:68-72 | the read-out shows non-negative seconds, zero exactly at expiry, and a fraction in [0, 1] |
| Playback.ScoreNeverNegative | play.js:196 | in every reachable session state the total score is non-negative |
| Playback.AnswerThenLateEvents | play.js:175-180 | answer, second answer, late expiry: the question is finalised once, with exactly the award of the first choice added to the score and logged |
| Editing.RemoveAt | create.js:189 | `splice(i, 1)` removes exactly element i and keeps the others in order |
| Editing.InsertAfter | create.js:293 | `splice(i + 1, 0, x)` puts x right after i; the length grows by one and the other elements keep their order |
| Editing.ReadChoices | create.js:240 | one choice per answer row, with the trimmed text and the checkbox value |
| Editing.Filled | create.js:241 | the filter keeps exactly the choices with text |
| Editing.AcceptsQuestion | create.js:241-242 | an accepted form has a non-empty prompt, at least two answers, and an answer with text marked correct |
| Editing.TwoFilled | create.js:241-242 | at least two choices survive the filter exactly when two answer rows have text |
| Editing.AcceptsQuestionIff | create.js:240-245 | saving is accepted exactly when the trimmed prompt is non-empty, two answers have text, and one answer with text is marked correct |
| Editing.Retitle | create.js:268 | a blank title input keeps the old title; otherwise the title is the trimmed input, which is non-empty and neither starts nor ends with whitespace |
| Editing.NewQuestion | create.js:224-226 | a new question has the given id, an empty prompt, the quiz's truthy default time (else 20), its default points (else "standard") and answer mode (else "single"), four empty answers of which only the first is correct, and does not yet pass the save rule |
| Editing.FormQuestion | create.js:249-259 | the saved question has the given id and media, the trimmed prompt, exactly the choices read from the answer rows, the form's time when truthy and 20 otherwise, and the form's type, points and answer mode |
| Editing.WithSettings | create.js:360 | the four settings take the form's values; id, prompt, choices and media are kept |
| Editing.ApplyAll | create.js:371-376 | every question gets the same type, time limit, points and answer mode, and keeps its id, prompt, choices, media and points fields; the count is unchanged |
| Editing.Editor.constructor | create.js:409-421 | after init the quiz list is non-empty, `currentId` names a quiz in it and no question is open |
| Editing.Editor.AddQuiz | create.js:166-182 | appends one new quiz and makes it the current one |
| Editing.Editor.SelectQuiz | create.js:198-206 | a non-empty id becomes current and the form is emptied |
| Editing.Editor.DeleteQuiz | create.js:184-195 | after confirmation exactly the current quiz is removed, the others stay in order, and `currentId` becomes the first remaining id or null |
| Editing.Editor.OpenQuestion | create.js:208-218 | a question of the current quiz becomes the open one; an unknown id changes nothing |
| Editing.Editor.AddQuestion | create.js:221-231 | appends a question built from the quiz defaults and opens it |
| Editing.SavedQuiz | create.js:247-268 | with an open question (known to the quiz) the list keeps its length, that question is replaced by the form values and keeps its media, every other question is unchanged; otherwise the form question is appended under a fresh id; the question saved is in the quiz afterwards; no other quiz field but the title changes |
| Editing.Editor.SaveQuestion | create.js:234-275 | saves iff a quiz is selected and the trimmed prompt, two filled answers and one correct filled answer pass; a rejected save changes nothing; an accepted one replaces the current quiz by SavedQuiz and opens the appended question; the current quiz stays selected and the open question stays in it |
| Editing.Editor.DeleteQuestion | create.js:278-284 | after confirmation exactly the open question is removed and the form is emptied |
| Editing.Editor.DuplicateQuestion | create.js:285-296 | a copy under a fresh id is inserted right after the open question; all else is unchanged |
| Editing.Editor.ApplySettings | create.js:354-363 | only the open question's four settings change |
| Editing.Editor.ApplyToAll | create.js:366-387 | every question of the current quiz gets the four settings, and they become the quiz defaults; nothing else changes |
| Editing.Editor.UpdateTitle | create.js:400-406 | the current quiz takes the trimmed title unless the input is blank |

## Left out

- DOM reading and rendering is left out: `innerHTML`, class toggles (including the revealed-correct and revealed-incorrect markers), feedback text, focus and keyboard navigation, and the resize and orientation handlers with `debounce`. Form values and `confirm` answers are parameters.
- `localStorage`, `loadStore`/`saveStore` and `JSON.parse`/`JSON.stringify` are left out. The loaded document is a parameter of both constructors, and writes are not modelled.
- Attaching media with `FileReader` and drag and drop is left out, because it is asynchronous browser I/O. Saving keeps any media already attached.
- `setInterval`/`setTimeout` are left out. A tick, an expiry and the 1.2 s advance are method calls. `Tick` and `Advance` require the state in which the event loop schedules them: a running timer, and a finalised question.
- Playback.PlaySession.Tick: does not model the floating-point drift of `timeLeft -= 0.2`, because time is counted in whole ticks of 200 ms.
- Scoring.ComputeScoreForQuestion: does not model NaN, infinities or binary floating-point rounding, because JavaScript numbers are modelled as exact reals.
- Scoring.ComputeScoreForQuestion: does not model the `if(!q) return 0` guard, because its only caller passes an existing question.
- Playback.PlaySession.constructor: requires the stored quizzes to have non-empty ids, as every id either page writes is (`uid`, `'quiz_default'`). Otherwise play.js can end with `quiz` null; it then shows nothing and accepts no input, which is not modelled.
- Editing.Editor.SaveQuestion: takes `Number(qTime.value)` as already converted. String-to-number parsing is not modelled.
- Page navigation (`window.open`, `location.href`) and the list rendering (`renderQuizList`, `renderQuestionList`, `buildAnswersGrid`) are left out. So is the form filling in `openEditor`; only its effect on `editingId` is kept.
