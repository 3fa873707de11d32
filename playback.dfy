/**
 * The playback engine of play.js: a countdown timer, the per-question answer
 * guard and the advance to the next question or the end screen, as a class
 * over the page's module-level state. Time is counted in ticks of 200 ms;
 * the scheduled callbacks (the interval tick and the 1.2 s advance) are
 * methods that the event loop calls.
 */
module Playback {
  import opened Wrappers
  import opened Quizzes
  import opened Scoring

  const TicksPerSecond: int := 5

  /** Where a play session stands. */
  datatype Phase =
    | NoQuestions  // the quiz has no questions: nothing is timed or scored
    | Awaiting     // question `currentIndex` is shown and not yet finalised
    | Resolved     // question `currentIndex` is finalised; the advance is pending
    | Finished     // the end screen is shown

  function Sum(s: seq<int>): int {
    if s == [] then 0 else s[0] + Sum(s[1..])
  }

  lemma {:induction false} SumAppend(s: seq<int>, x: int)
    ensures Sum(s + [x]) == Sum(s) + x
  {
    if s != [] {
      assert (s + [x])[1..] == s[1..] + [x];
      SumAppend(s[1..], x);
    }
  }

  lemma {:induction false} SumNonNegative(s: seq<int>)
    requires forall i :: 0 <= i < |s| ==> s[i] >= 0
    ensures Sum(s) >= 0
  {
    if s != [] {
      SumNonNegative(s[1..]);
    }
  }

  /** The limit renderQuestion hands to startTimer: `q.timeLimit || quiz.defaultTime || 20`. */
  function QuestionTime(q: Question, quiz: Quiz): (r: real)
    ensures r != 0.0
    ensures Truthy(q.timeLimit) ==> r == q.timeLimit.value
    ensures !Truthy(q.timeLimit) && Truthy(quiz.defaultTime) ==> r == quiz.defaultTime.value
    ensures !Truthy(q.timeLimit) && !Truthy(quiz.defaultTime) ==> r == DefaultTime
  {
    if Truthy(q.timeLimit) then q.timeLimit.value
    else if Truthy(quiz.defaultTime) then quiz.defaultTime.value
    else DefaultTime
  }

  /** startTimer's `Math.max(1, Math.floor(limit || 20))`: whole seconds, at least one. */
  function TimerLimit(limit: real): (r: int)
    ensures r >= 1
    ensures limit >= 1.0 ==> r as real <= limit < r as real + 1.0
    ensures limit < 1.0 && limit != 0.0 ==> r == 1
    ensures limit == 0.0 ==> r == 20
  {
    var l := if limit != 0.0 then limit else DefaultTime;
    Max(1, l.Floor)
  }

  /** The scoring `Tmax` of the question on screen equals the limit renderQuestion
      handed to startTimer: the timer's own whole-second limit is only consulted when
      neither the question nor the quiz has a time, and it is then 20 as well. */
  lemma ScoringTimeIsQuestionTime(q: Question, quiz: Quiz)
    ensures ScoringTime(q, quiz, TimerLimit(QuestionTime(q, quiz))) == QuestionTime(q, quiz)
  {
  }

  /** `Math.ceil(ticks / 5)`: the whole seconds shown on the timer. */
  function CeilSeconds(ticks: int): (r: int)
    ensures (r - 1) * TicksPerSecond < ticks <= r * TicksPerSecond
  {
    -((-ticks) / TicksPerSecond)
  }

  /** `Math.max(0, Math.ceil(timeLeft))`: the seconds credited to an answer. */
  function RemainingSeconds(ticks: int): (r: int)
    ensures r >= 0
    ensures ticks >= 0 ==> (r - 1) * TicksPerSecond < ticks <= r * TicksPerSecond
  {
    Max(0, CeilSeconds(ticks))
  }

  /** updateTimerUI's bar width: `Math.max(0, Math.min(1, timeLeft / timeLimit))`. */
  function BarFraction(ticks: int, limit: int): (r: real)
    requires limit >= 1
    ensures 0.0 <= r <= 1.0
    ensures 0 <= ticks <= TicksPerSecond * limit ==> r * (TicksPerSecond * limit) as real == ticks as real
  {
    var f := (ticks as real / TicksPerSecond as real) / limit as real;
    if f < 0.0 then 0.0 else if f > 1.0 then 1.0 else f
  }

  datatype MediaKind = Video | Audio | Image

  /** The widget renderQuestion builds for `q.media`: none for an empty or missing
      value, then by data-URI prefix, anything else shown as an image. */
  function MediaWidget(media: Option<string>): (r: Option<MediaKind>)
    ensures r.Some? <==> media.Some? && media.value != ""
    ensures r == Some(Image) ==> !("data:video" <= media.value) && !("data:audio" <= media.value)
    ensures r == Some(Video) ==> "data:video" <= media.value
    ensures r == Some(Audio) ==> "data:audio" <= media.value
  {
    if media.None? || media.value == "" then None
    else if "data:video" <= media.value then Some(Video)
    else if "data:audio" <= media.value then Some(Audio)
    else Some(Image)
  }

  /** Whether choice `choiceIdx` of `q` exists and is marked correct (`!!(choice && choice.isCorrect)`). */
  predicate IsCorrectChoice(q: Question, choiceIdx: int)
    ensures IsCorrectChoice(q, choiceIdx) <==> 0 <= choiceIdx < |q.choices| && q.choices[choiceIdx].isCorrect
    ensures (forall c :: c in q.choices ==> !c.isCorrect) ==> !IsCorrectChoice(q, choiceIdx)
  {
    0 <= choiceIdx < |q.choices| && q.choices[choiceIdx].isCorrect
  }

  class PlaySession {
    const quiz: Quiz
    var currentIndex: int
    var timeLeft: int     // in ticks of 200 ms
    var timeLimit: int    // in whole seconds
    var totalScore: int
    var answered: bool
    var timerRunning: bool  // `timerInterval` is set

    ghost var phase: Phase
    ghost var finalised: seq<int>  // the questions finalised so far, in order
    ghost var awards: seq<int>     // what each finalisation added to the score

    /** The session invariant: each question is finalised at most once, in order,
        and the score is the sum of what the finalisations awarded. */
    ghost predicate Valid()
      reads this
    {
      && timeLimit >= 1
      && 0 <= timeLeft <= TicksPerSecond * timeLimit
      && |awards| == |finalised|
      && (forall j :: 0 <= j < |finalised| ==> finalised[j] == j)
      && (forall j :: 0 <= j < |awards| ==> awards[j] >= 0)
      && totalScore == Sum(awards)
      && (timerRunning ==> phase == Awaiting && timeLeft > 0)
      && match phase
         case NoQuestions => |quiz.questions| == 0 && finalised == []
         case Awaiting =>
           0 <= currentIndex < |quiz.questions| && !answered && |finalised| == currentIndex
         case Resolved =>
           0 <= currentIndex < |quiz.questions| && answered && |finalised| == currentIndex + 1
         case Finished =>
           answered && currentIndex == |quiz.questions| - 1 && |finalised| == |quiz.questions|
    }

    /** The page's init: repair the loaded document, take its current quiz,
        reset the score and render the first question. */
    constructor (loaded: Option<seq<Quiz>>, loadedCurrent: Option<Id>)
      requires loaded.Some? ==> IdsSet(loaded.value)
      ensures Valid()
      ensures var st := Normalise(loaded, loadedCurrent, NewQuiz("quiz_default", "My Quiz"));
              quiz == st.quizzes[CurrentQuizIndex(st.quizzes, st.currentId).value]
      ensures totalScore == 0 && !answered && finalised == []
      ensures |quiz.questions| == 0 ==> phase == NoQuestions && !timerRunning
      ensures |quiz.questions| > 0 ==>
                phase == Awaiting && currentIndex == 0 && timerRunning
                && timeLimit == TimerLimit(QuestionTime(quiz.questions[0], quiz))
                && timeLeft == TicksPerSecond * timeLimit
    {
      var st := Normalise(loaded, loadedCurrent, NewQuiz("quiz_default", "My Quiz"));
      quiz := st.quizzes[CurrentQuizIndex(st.quizzes, st.currentId).value];
      currentIndex, timeLeft, timeLimit := 0, 0, 20;
      totalScore, answered, timerRunning := 0, false, false;
      phase, finalised, awards := NoQuestions, [], [];
      new;
      RenderQuestion(0);
      phase := if |quiz.questions| == 0 then NoQuestions else Awaiting;
    }

    /** clearTimer: stop the interval; harmless when none runs. */
    method ClearTimer()
      modifies this`timerRunning
      ensures !timerRunning
    {
      timerRunning := false;
    }

    /** startTimer(limit): replace any running interval by a fresh countdown. */
    method StartTimer(limit: real)
      modifies this`timerRunning, this`timeLimit, this`timeLeft
      ensures timeLimit == TimerLimit(limit) && timeLimit >= 1
      ensures timeLeft == TicksPerSecond * timeLimit
      ensures timerRunning
    {
      ClearTimer();
      timeLimit := TimerLimit(limit);
      timeLeft := TicksPerSecond * timeLimit;
      timerRunning := true;
    }

    /** renderQuestion(idx), state part: stop the timer, clear the guard, clamp the
        index and time the question; with no questions nothing is timed. */
    method RenderQuestion(idx: int)
      modifies this`timerRunning, this`timeLimit, this`timeLeft, this`answered, this`currentIndex
      ensures !answered
      ensures |quiz.questions| == 0 ==>
                !timerRunning && currentIndex == old(currentIndex)
                && timeLeft == old(timeLeft) && timeLimit == old(timeLimit)
      ensures |quiz.questions| > 0 ==>
                && 0 <= currentIndex < |quiz.questions|
                && currentIndex == (if idx < 0 then 0 else if idx >= |quiz.questions| then |quiz.questions| - 1 else idx)
                && timerRunning
                && timeLimit == TimerLimit(QuestionTime(quiz.questions[currentIndex], quiz))
                && timeLeft == TicksPerSecond * timeLimit
    {
      ClearTimer();
      answered := false;
      var qs := quiz.questions;
      if |qs| == 0 {
        return;
      }
      currentIndex := if idx < 0 then 0 else if idx > |qs| - 1 then |qs| - 1 else idx;
      StartTimer(QuestionTime(qs[currentIndex], quiz));
    }

    /** One 200 ms tick of the interval: the countdown loses a tick; at zero the
        timer stops and the question expires. */
    method Tick()
      requires Valid() && timerRunning
      modifies this
      ensures Valid()
      ensures timeLeft < old(timeLeft)
      ensures currentIndex == old(currentIndex) && timeLimit == old(timeLimit)
      ensures totalScore == old(totalScore)
      ensures old(timeLeft) > 1 ==>
                timeLeft == old(timeLeft) - 1 && timerRunning && phase == Awaiting && !answered
                && finalised == old(finalised) && awards == old(awards)
      ensures old(timeLeft) == 1 ==>
                timeLeft == 0 && !timerRunning && answered && phase == Resolved
                && finalised == old(finalised) + [currentIndex] && awards == old(awards) + [0]
    {
      timeLeft := timeLeft - 1;
      if timeLeft <= 0 {
        timeLeft := 0;
        ClearTimer();
        OnTimeExpired();
      }
    }

    /** onTimeExpired: unless the question was already finalised, finalise it
        with no award. */
    method OnTimeExpired()
      requires Valid() && !timerRunning
      modifies this`answered, this`phase, this`finalised, this`awards
      ensures Valid()
      ensures answered
      ensures old(answered) ==> phase == old(phase) && finalised == old(finalised) && awards == old(awards)
      ensures !old(answered) && old(phase) == Awaiting ==>
                phase == Resolved && finalised == old(finalised) + [currentIndex] && awards == old(awards) + [0]
      ensures old(phase) != Awaiting ==> phase == old(phase) && finalised == old(finalised) && awards == old(awards)
    {
      if answered {
        return;
      }
      answered := true;
      if !(0 <= currentIndex < |quiz.questions|) {
        return;
      }
      phase := Resolved;
      finalised := finalised + [currentIndex];
      SumAppend(awards, 0);
      awards := awards + [0];
    }

    /** onAnswerSelected(choiceIdx): unless the question was already finalised
        (or there is none), stop the timer, finalise it and, for a correct
        choice, add the speed-weighted award for the whole seconds left. */
    method OnAnswerSelected(choiceIdx: int)
      requires Valid()
      modifies this
      ensures Valid()
      ensures currentIndex == old(currentIndex) && timeLeft == old(timeLeft) && timeLimit == old(timeLimit)
      ensures old(answered) || !(0 <= old(currentIndex) < |quiz.questions|) ==>
                && answered == old(answered) && timerRunning == old(timerRunning)
                && totalScore == old(totalScore) && phase == old(phase)
                && finalised == old(finalised) && awards == old(awards)
      ensures !old(answered) && 0 <= old(currentIndex) < |quiz.questions| ==>
                var q := quiz.questions[currentIndex];
                var award := if IsCorrectChoice(q, choiceIdx)
                             then ComputeScoreForQuestion(q, quiz, timeLimit, RemainingSeconds(timeLeft) as real)
                             else 0;
                && old(phase) == Awaiting && phase == Resolved
                && answered && !timerRunning
                && totalScore == old(totalScore) + award
                && finalised == old(finalised) + [currentIndex] && awards == old(awards) + [award]
    {
      if answered {
        return;
      }
      var qs := quiz.questions;
      if !(0 <= currentIndex < |qs|) {
        return;
      }
      var q := qs[currentIndex];
      answered := true;
      ClearTimer();
      var isCorrect := 0 <= choiceIdx < |q.choices| && q.choices[choiceIdx].isCorrect;
      var remaining := RemainingSeconds(timeLeft);
      var awarded := 0;
      if isCorrect {
        awarded := ComputeScoreForQuestion(q, quiz, timeLimit, remaining as real);
        totalScore := totalScore + awarded;
      }
      phase := Resolved;
      finalised := finalised + [currentIndex];
      SumAppend(awards, awarded);
      awards := awards + [awarded];
    }

    /** The 1.2 s callback scheduled by a finalisation: the next question, or the
        end screen after the last one. */
    method Advance()
      requires Valid() && phase == Resolved
      modifies this
      ensures Valid()
      ensures totalScore == old(totalScore) && finalised == old(finalised) && awards == old(awards)
      ensures old(currentIndex) < |quiz.questions| - 1 ==>
                && phase == Awaiting && currentIndex == old(currentIndex) + 1
                && !answered && timerRunning
                && timeLimit == TimerLimit(QuestionTime(quiz.questions[currentIndex], quiz))
                && timeLeft == TicksPerSecond * timeLimit
      ensures old(currentIndex) == |quiz.questions| - 1 ==>
                phase == Finished && currentIndex == old(currentIndex) && answered && !timerRunning
    {
      if currentIndex < |quiz.questions| - 1 {
        RenderQuestion(currentIndex + 1);
        phase := Awaiting;
      } else {
        ShowEndScreen();
      }
    }

    /** showEndScreen, state part: the timer stops for good. */
    method ShowEndScreen()
      requires Valid() && phase == Resolved && currentIndex == |quiz.questions| - 1
      modifies this`timerRunning, this`phase
      ensures Valid() && phase == Finished && !timerRunning
    {
      ClearTimer();
      phase := Finished;
    }

    /** The timer read-out of updateTimerUI: whole seconds and the bar's fraction. */
    function TimerDisplay(): (r: (int, real))
      reads this
      requires Valid()
      ensures r.0 >= 0 && 0.0 <= r.1 <= 1.0
      ensures r.0 == 0 <==> timeLeft == 0
    {
      (CeilSeconds(timeLeft), BarFraction(timeLeft, timeLimit))
    }
  }

  /** The score never goes negative. */
  lemma ScoreNeverNegative(s: PlaySession)
    requires s.Valid()
    ensures s.totalScore >= 0
  {
    SumNonNegative(s.awards);
  }

  /** A question is finalised once: after an answer, a second answer and a late
      expiry change nothing, and no tick can fire. */
  method AnswerThenLateEvents(s: PlaySession, first: int, second: int)
    requires s.Valid() && s.phase == Awaiting
    modifies s
    ensures s.Valid() && s.phase == Resolved && !s.timerRunning
    ensures |s.finalised| == |old(s.finalised)| + 1
    ensures s.currentIndex == old(s.currentIndex) && s.timeLeft == old(s.timeLeft)
    ensures var q := s.quiz.questions[old(s.currentIndex)];
            var award := if IsCorrectChoice(q, first)
                         then ComputeScoreForQuestion(q, s.quiz, old(s.timeLimit), RemainingSeconds(old(s.timeLeft)) as real)
                         else 0;
            && s.awards == old(s.awards) + [award]
            && s.totalScore == old(s.totalScore) + award
  {
    s.OnAnswerSelected(first);
    var score := s.totalScore;
    s.OnAnswerSelected(second);
    s.OnTimeExpired();
    assert s.totalScore == score;
  }
}
