/**
 * The editor page (create.js): its click handlers, with the form's values and
 * the answers of `confirm` passed in, as methods over the stored quiz list
 * and the id of the question being edited.
 */
module Editing {
  import opened Wrappers
  import opened Quizzes
  import opened Text

  // ---------------------------------------------------------------------------
  // The list operations the handlers perform

  /** `splice(i, 1)`: the element at `i` is gone, those after it move down by one. */
  function RemoveAt<T>(s: seq<T>, i: nat): (r: seq<T>)
    requires i < |s|
    ensures |r| == |s| - 1
    ensures forall j :: 0 <= j < i ==> r[j] == s[j]
    ensures forall j :: i <= j < |r| ==> r[j] == s[j + 1]
    ensures multiset(r) + multiset{s[i]} == multiset(s)
  {
    assert s == s[..i] + [s[i]] + s[i + 1..];
    s[..i] + s[i + 1..]
  }

  /** `splice(i + 1, 0, x)`: `x` lands right after position `i`, later elements move up by one. */
  function InsertAfter<T>(s: seq<T>, i: nat, x: T): (r: seq<T>)
    requires i < |s|
    ensures |r| == |s| + 1
    ensures r[i + 1] == x
    ensures forall j :: 0 <= j <= i ==> r[j] == s[j]
    ensures forall j :: i + 1 < j < |r| ==> r[j] == s[j - 1]
    ensures multiset(r) == multiset(s) + multiset{x}
  {
    assert s == s[..i + 1] + s[i + 1..];
    s[..i + 1] + [x] + s[i + 1..]
  }

  // ---------------------------------------------------------------------------
  // Form values

  /** One answer row of the form: its text input and its "Correct" checkbox. */
  datatype AnswerInput = AnswerInput(text: string, checked: bool)

  /** The settings inputs: `qType`, `Number(qTime.value)`, `qPoints` and `answerMode`. */
  datatype Settings = Settings(kind: string, time: NumField, points: string, answerMode: string)

  /** The question form: prompt, answer rows, quiz title and settings. */
  datatype QuestionForm = QuestionForm(prompt: string, answers: seq<AnswerInput>, title: string, settings: Settings)

  /** The choices the save handler reads: every text trimmed, the checkbox as is. */
  function ReadChoices(answers: seq<AnswerInput>): (r: seq<Choice>)
    ensures |r| == |answers|
    ensures forall i :: 0 <= i < |r| ==> r[i] == Choice(Trim(answers[i].text), answers[i].checked)
  {
    seq(|answers|, i requires 0 <= i < |answers| => Choice(Trim(answers[i].text), answers[i].checked))
  }

  /** `choices.filter(c => c.text)`: the answers with text, in order. */
  function Filled(choices: seq<Choice>): (r: seq<Choice>)
    ensures |r| <= |choices|
    ensures forall c :: c in r <==> c in choices && c.text != ""
  {
    if choices == [] then []
    else if choices[0].text != "" then [choices[0]] + Filled(choices[1..])
    else Filled(choices[1..])
  }

  /** The save rule: a prompt, at least two answers with text, and one of those marked correct. */
  predicate AcceptsQuestion(prompt: string, choices: seq<Choice>)
    ensures AcceptsQuestion(prompt, choices) ==> prompt != "" && |choices| >= 2
    ensures AcceptsQuestion(prompt, choices) ==> exists c :: c in choices && c.text != "" && c.isCorrect
  {
    var filled := Filled(choices);
    prompt != "" && |filled| >= 2 && exists c :: c in filled && c.isCorrect
  }

  predicate HasText(cs: seq<Choice>) {
    exists i :: 0 <= i < |cs| && cs[i].text != ""
  }

  predicate TwoWithText(cs: seq<Choice>) {
    exists i, j :: 0 <= i < j < |cs| && cs[i].text != "" && cs[j].text != ""
  }

  lemma OneFilled(cs: seq<Choice>)
    ensures |Filled(cs)| >= 1 <==> HasText(cs)
  {
    if |Filled(cs)| >= 1 {
      assert Filled(cs)[0] in Filled(cs);
    }
    if HasText(cs) {
      var i :| 0 <= i < |cs| && cs[i].text != "";
      assert cs[i] in Filled(cs);
    }
  }

  /** With a first answer that has text, a second one is any later answer with text. */
  lemma TwoWithTextAfterFilled(cs: seq<Choice>)
    requires cs != [] && cs[0].text != ""
    ensures TwoWithText(cs) <==> HasText(cs[1..])
  {
    var rest := cs[1..];
    if HasText(rest) {
      var j :| 0 <= j < |rest| && rest[j].text != "";
      assert cs[0].text != "" && cs[j + 1].text != "";
    }
    if TwoWithText(cs) {
      var i, j :| 0 <= i < j < |cs| && cs[i].text != "" && cs[j].text != "";
      assert rest[j - 1].text != "";
    }
  }

  /** A blank first answer takes no part in a pair of answers with text. */
  lemma TwoWithTextAfterBlank(cs: seq<Choice>)
    requires cs != [] && cs[0].text == ""
    ensures TwoWithText(cs) <==> TwoWithText(cs[1..])
  {
    var rest := cs[1..];
    if TwoWithText(cs) {
      var i, j :| 0 <= i < j < |cs| && cs[i].text != "" && cs[j].text != "";
      assert rest[i - 1].text != "" && rest[j - 1].text != "";
    }
    if TwoWithText(rest) {
      var i, j :| 0 <= i < j < |rest| && rest[i].text != "" && rest[j].text != "";
      assert cs[i + 1].text != "" && cs[j + 1].text != "";
    }
  }

  /** Two answers with text before the filter is two after it. */
  lemma {:induction false} TwoFilled(cs: seq<Choice>)
    ensures |Filled(cs)| >= 2 <==> TwoWithText(cs)
  {
    if cs != [] {
      TwoFilled(cs[1..]);
      if cs[0].text != "" {
        assert |Filled(cs)| == 1 + |Filled(cs[1..])|;
        OneFilled(cs[1..]);
        TwoWithTextAfterFilled(cs);
      } else {
        assert Filled(cs) == Filled(cs[1..]);
        TwoWithTextAfterBlank(cs);
      }
    }
  }

  /** The save rule stated position by position: it rejects exactly an empty
      prompt, fewer than two answers with text, or no answer with text marked correct. */
  lemma AcceptsQuestionIff(prompt: string, cs: seq<Choice>)
    ensures AcceptsQuestion(prompt, cs) <==>
      && prompt != ""
      && (exists i, j :: 0 <= i < j < |cs| && cs[i].text != "" && cs[j].text != "")
      && (exists i :: 0 <= i < |cs| && cs[i].text != "" && cs[i].isCorrect)
  {
    TwoFilled(cs);
    if exists i :: 0 <= i < |cs| && cs[i].text != "" && cs[i].isCorrect {
      var i :| 0 <= i < |cs| && cs[i].text != "" && cs[i].isCorrect;
      assert cs[i] in Filled(cs);
    }
  }

  /** `input.trim() || title`: a blank input never clears the title, and a title
      taken from the input is non-empty and trimmed. */
  function Retitle(input: string, title: string): (r: string)
    ensures AllWhitespace(input) ==> r == title
    ensures !AllWhitespace(input) ==> r == Trim(input) && r != [] && !IsWhitespace(r[0]) && !IsWhitespace(r[|r| - 1])
  {
    var t := Trim(input);
    if t != "" then t else title
  }

  /** The question built by the add button from the quiz defaults: four empty answers, the first marked correct. */
  function NewQuestion(id: Id, quiz: Quiz): (r: Question)
    ensures r.id == id && r.prompt == "" && Truthy(r.timeLimit)
    ensures r.timeLimit == (if Truthy(quiz.defaultTime) then quiz.defaultTime else Num(20.0))
    ensures r.points == (if quiz.defaultPoints != "" then quiz.defaultPoints else "standard")
    ensures r.answerMode == (if quiz.defaultAnswerMode != "" then quiz.defaultAnswerMode else "single")
    ensures |r.choices| == 4 && r.choices[0].isCorrect
    ensures forall i :: 0 <= i < |r.choices| ==> r.choices[i].text == "" && (r.choices[i].isCorrect <==> i == 0)
    ensures !AcceptsQuestion(r.prompt, r.choices)
  {
    Question(id, "", OrElse(quiz.defaultTime, Num(20.0)), "quiz",
      TextOr(quiz.defaultPoints, "standard"), TextOr(quiz.defaultAnswerMode, "single"),
      [Choice("", true), Choice("", false), Choice("", false), Choice("", false)],
      None, None, Absent, Absent)
  }

  /** The `qobj` of the save handler: the form's values under `id`, with the given media kept. */
  function FormQuestion(id: Id, form: QuestionForm, media: Option<string>, mediaName: Option<string>): (r: Question)
    ensures r.id == id && r.media == media && r.mediaName == mediaName && Truthy(r.timeLimit)
    ensures r.prompt == Trim(form.prompt) && r.choices == ReadChoices(form.answers)
    ensures r.timeLimit == (if Truthy(form.settings.time) then form.settings.time else Num(20.0))
    ensures r.prompt == [] || (!IsWhitespace(r.prompt[0]) && !IsWhitespace(r.prompt[|r.prompt| - 1]))
    ensures |r.choices| == |form.answers|
    ensures r.kind == form.settings.kind && r.points == form.settings.points && r.answerMode == form.settings.answerMode
  {
    Question(id, Trim(form.prompt), OrElse(form.settings.time, Num(20.0)), form.settings.kind,
      form.settings.points, form.settings.answerMode, ReadChoices(form.answers),
      media, mediaName, Absent, Absent)
  }

  /** The four settings fields of one question replaced (`q.type = …` and so on). */
  function WithSettings(q: Question, s: Settings): (r: Question)
    ensures r.kind == s.kind && r.timeLimit == s.time && r.points == s.points && r.answerMode == s.answerMode
    ensures r.id == q.id && r.prompt == q.prompt && r.choices == q.choices && r.media == q.media && r.mediaName == q.mediaName
  {
    q.(kind := s.kind, timeLimit := s.time, points := s.points, answerMode := s.answerMode)
  }

  /** Apply-to-all on a question list: every question gets the same four
      settings, and keeps its id, prompt, choices, media and points. */
  function ApplyAll(qs: seq<Question>, s: Settings): (r: seq<Question>)
    ensures |r| == |qs|
    ensures forall i :: 0 <= i < |r| ==>
              && r[i].kind == s.kind && r[i].timeLimit == s.time
              && r[i].points == s.points && r[i].answerMode == s.answerMode
    ensures forall i :: 0 <= i < |r| ==>
              && r[i].id == qs[i].id && r[i].prompt == qs[i].prompt && r[i].choices == qs[i].choices
              && r[i].media == qs[i].media && r[i].mediaName == qs[i].mediaName
              && r[i].basePoints == qs[i].basePoints && r[i].bonusPoints == qs[i].bonusPoints
  {
    seq(|qs|, i requires 0 <= i < |qs| => WithSettings(qs[i], s))
  }

  /** The quiz after a save that passed the rule. With an open question
      (`editing`), that question is replaced in place by the form's values and
      keeps its media; otherwise the form's question is appended under
      `freshId`. The title is taken from the title input unless it is blank. */
  function SavedQuiz(quiz: Quiz, editing: Option<Id>, form: QuestionForm, freshId: Id): (r: Quiz)
    requires IsSet(editing) ==> editing.value in QuestionIds(quiz.questions)
    ensures r == quiz.(questions := r.questions, title := Retitle(form.title, quiz.title))
    ensures IsSet(editing) ==>
              var i := FindQuestion(quiz.questions, editing.value).value;
              && |r.questions| == |quiz.questions|
              && r.questions[i] == FormQuestion(editing.value, form, quiz.questions[i].media, quiz.questions[i].mediaName)
              && (forall j :: 0 <= j < |r.questions| && j != i ==> r.questions[j] == quiz.questions[j])
              && editing.value in QuestionIds(r.questions)
    ensures !IsSet(editing) ==>
              && |r.questions| == |quiz.questions| + 1
              && r.questions[..|quiz.questions|] == quiz.questions
              && r.questions[|quiz.questions|] == FormQuestion(freshId, form, None, None)
              && freshId in QuestionIds(r.questions)
  {
    var qs := if IsSet(editing) then
                var i := FindQuestion(quiz.questions, editing.value).value;
                var q := quiz.questions[i];
                quiz.questions[i := FormQuestion(editing.value, form, q.media, q.mediaName)]
              else quiz.questions + [FormQuestion(freshId, form, None, None)];
    assert IsSet(editing) ==> QuestionIds(qs)[FindQuestion(quiz.questions, editing.value).value] == editing.value;
    assert !IsSet(editing) ==> QuestionIds(qs)[|quiz.questions|] == freshId;
    quiz.(questions := qs, title := Retitle(form.title, quiz.title))
  }

  /** Replacing the current quiz by one with the same id keeps it current. */
  lemma ReplaceKeepsCurrent(quizzes: seq<Quiz>, currentId: Option<Id>, k: nat, quiz: Quiz)
    requires CurrentQuizIndex(quizzes, currentId) == Some(k)
    requires quiz.id == quizzes[k].id
    ensures CurrentQuizIndex(quizzes[k := quiz], currentId) == Some(k)
  {
    assert QuizIds(quizzes[k := quiz]) == QuizIds(quizzes);
  }

  // ---------------------------------------------------------------------------
  // The editor page

  class Editor {
    var quizzes: seq<Quiz>       // store.quizzes
    var currentId: Option<Id>    // store.currentId
    var editingId: Option<Id>    // the question open in the form

    /** The open question, when there is one, belongs to the current quiz. */
    ghost predicate Valid()
      reads this
    {
      IsSet(editingId) ==>
        var k := CurrentQuizIndex(quizzes, currentId);
        k.Some? && editingId.value in QuestionIds(quizzes[k.value].questions)
    }

    function Current(): Option<nat>
      reads this
    {
      CurrentQuizIndex(quizzes, currentId)
    }

    /** No question of any quiz carries `id`. */
    ghost predicate FreshQuestionId(id: Id)
      reads this
    {
      forall i, j :: 0 <= i < |quizzes| && 0 <= j < |quizzes[i].questions| ==> quizzes[i].questions[j].id != id
    }

    /** init: repair the loaded document and open an empty form. */
    constructor (loaded: Option<seq<Quiz>>, loadedCurrent: Option<Id>, freshId: Id)
      requires freshId != ""
      ensures Valid()
      ensures Store(quizzes, currentId) == Normalise(loaded, loadedCurrent, NewQuiz(freshId, "My Quiz"))
      ensures |quizzes| > 0 && currentId.Some? && currentId.value in QuizIds(quizzes)
      ensures editingId == None
    {
      var st := Normalise(loaded, loadedCurrent, NewQuiz(freshId, "My Quiz"));
      quizzes := st.quizzes;
      currentId := st.currentId;
      editingId := None;
    }

    /** The add-quiz button: append a new quiz, make it current, open an empty form. */
    method AddQuiz(freshId: Id)
      requires Valid() && freshId != "" && freshId !in QuizIds(quizzes)
      modifies this
      ensures Valid()
      ensures quizzes == old(quizzes) + [NewQuiz(freshId, "New Quiz")]
      ensures currentId == Some(freshId) && Current() == Some(|old(quizzes)|)
      ensures editingId == None
    {
      quizzes := quizzes + [NewQuiz(freshId, "New Quiz")];
      currentId := Some(freshId);
      editingId := None;
      assert QuizIds(quizzes) == QuizIds(old(quizzes)) + [freshId];
    }

    /** The open button of the quiz list (setCurrentQuiz). */
    method SelectQuiz(id: Id)
      requires Valid()
      modifies this
      ensures Valid()
      ensures quizzes == old(quizzes)
      ensures id == "" ==> currentId == old(currentId) && editingId == old(editingId)
      ensures id != "" ==> currentId == Some(id) && editingId == None
    {
      if id == "" {
        return;
      }
      currentId := Some(id);
      editingId := None;
    }

    /** The delete-quiz button: after confirmation the current quiz is removed
        and the first remaining quiz, if any, becomes current. */
    method DeleteQuiz(confirmed: bool)
      requires Valid()
      modifies this
      ensures Valid()
      ensures old(Current()).None? || !confirmed ==>
                quizzes == old(quizzes) && currentId == old(currentId) && editingId == old(editingId)
      ensures old(Current()).Some? && confirmed ==>
                && quizzes == RemoveAt(old(quizzes), old(Current()).value)
                && currentId == (if |quizzes| > 0 then Some(quizzes[0].id) else None)
                && editingId == None
    {
      if !IsSet(currentId) {
        return;
      }
      var idx := FindQuiz(quizzes, currentId.value);
      if idx.None? {
        return;
      }
      if !confirmed {
        return;
      }
      quizzes := RemoveAt(quizzes, idx.value);
      currentId := if |quizzes| > 0 then Some(quizzes[0].id) else None;
      editingId := None;
    }

    /** The edit button of the question list: open that question of the current quiz. */
    method OpenQuestion(id: Id)
      requires Valid()
      modifies this`editingId
      ensures Valid()
      ensures old(Current()).Some? && id in QuestionIds(quizzes[old(Current()).value].questions) ==>
                editingId == Some(id)
      ensures old(Current()).None? || id !in QuestionIds(quizzes[old(Current()).value].questions) ==>
                editingId == old(editingId)
    {
      var k := Current();
      if k.None? {
        return;
      }
      var i := FindQuestion(quizzes[k.value].questions, id);
      if i.None? {
        return;
      }
      editingId := Some(id);
    }

    /** The add-question button: append a question built from the quiz defaults and open it. */
    method AddQuestion(freshId: Id)
      requires Valid() && freshId != "" && FreshQuestionId(freshId)
      modifies this
      ensures Valid()
      ensures currentId == old(currentId) && Current() == old(Current())
      ensures old(Current()).None? ==> quizzes == old(quizzes) && editingId == old(editingId)
      ensures old(Current()).Some? ==>
                var k := old(Current()).value;
                && quizzes == old(quizzes)[k := old(quizzes)[k].(questions := old(quizzes)[k].questions + [NewQuestion(freshId, old(quizzes)[k])])]
                && editingId == Some(freshId)
    {
      var k := Current();
      if k.None? {
        return;
      }
      var quiz := quizzes[k.value];
      var qs := quiz.questions + [NewQuestion(freshId, quiz)];
      assert QuestionIds(qs)[|qs| - 1] == freshId;
      ReplaceKeepsCurrent(quizzes, currentId, k.value, quiz.(questions := qs));
      quizzes := quizzes[k.value := quiz.(questions := qs)];
      editingId := Some(freshId);
    }

    /** Writes `quiz` back over the current quiz, which it must not rename. */
    method PutCurrent(k: nat, quiz: Quiz)
      requires Current() == Some(k) && quiz.id == quizzes[k].id
      modifies this`quizzes
      ensures quizzes == old(quizzes)[k := quiz] && Current() == Some(k)
    {
      ReplaceKeepsCurrent(quizzes, currentId, k, quiz);
      quizzes := quizzes[k := quiz];
    }

    /** The save button. A form that breaks the save rule, or the lack of a
        current quiz, leaves everything as it was. Otherwise the open question
        is replaced in place, keeping its media, or a new question is appended
        and opened; and the quiz title is taken from the title input. */
    method SaveQuestion(form: QuestionForm, freshId: Id) returns (saved: bool)
      requires Valid() && freshId != "" && FreshQuestionId(freshId)
      modifies this
      ensures Valid()
      ensures saved <==> old(Current()).Some? && AcceptsQuestion(Trim(form.prompt), ReadChoices(form.answers))
      ensures currentId == old(currentId) && Current() == old(Current())
      ensures !saved ==> quizzes == old(quizzes) && editingId == old(editingId)
      ensures saved ==>
                var k := old(Current()).value;
                && quizzes == old(quizzes)[k := SavedQuiz(old(quizzes)[k], old(editingId), form, freshId)]
                && editingId == (if old(IsSet(editingId)) then old(editingId) else Some(freshId))
    {
      var k := Current();
      if k.None? {
        return false;
      }
      var prompt := Trim(form.prompt);
      var choices := ReadChoices(form.answers);
      if !AcceptsQuestion(prompt, choices) {
        return false;
      }
      var updated := SavedQuiz(quizzes[k.value], editingId, form, freshId);
      if !IsSet(editingId) {
        editingId := Some(freshId);
      }
      PutCurrent(k.value, updated);
      saved := true;
    }

    /** The delete-question button: after confirmation the open question is
        removed from the current quiz and the form is emptied. */
    method DeleteQuestion(confirmed: bool)
      requires Valid()
      modifies this
      ensures Valid()
      ensures currentId == old(currentId) && Current() == old(Current())
      ensures !old(IsSet(editingId)) || !confirmed ==> quizzes == old(quizzes) && editingId == old(editingId)
      ensures old(IsSet(editingId)) && confirmed ==>
                var k := old(Current()).value;
                var quiz := old(quizzes)[k];
                var i := FindQuestion(quiz.questions, old(editingId).value).value;
                && quizzes == old(quizzes)[k := quiz.(questions := RemoveAt(quiz.questions, i))]
                && editingId == None
    {
      var k := Current();
      if k.None? {
        return;
      }
      if !IsSet(editingId) {
        return;
      }
      var quiz := quizzes[k.value];
      var idx := FindQuestion(quiz.questions, editingId.value);
      if idx.Some? && confirmed {
        var updated := quiz.(questions := RemoveAt(quiz.questions, idx.value));
        ReplaceKeepsCurrent(quizzes, currentId, k.value, updated);
        quizzes := quizzes[k.value := updated];
        editingId := None;
      }
    }

    /** The duplicate button: a copy of the open question under a fresh id is
        inserted right after it; the original stays open. */
    method DuplicateQuestion(freshId: Id)
      requires Valid() && freshId != "" && FreshQuestionId(freshId)
      modifies this`quizzes
      ensures Valid()
      ensures Current() == old(Current())
      ensures !IsSet(editingId) ==> quizzes == old(quizzes)
      ensures IsSet(editingId) ==>
                var k := Current().value;
                var quiz := old(quizzes)[k];
                var i := FindQuestion(quiz.questions, editingId.value).value;
                quizzes == old(quizzes)[k := quiz.(questions := InsertAfter(quiz.questions, i, quiz.questions[i].(id := freshId)))]
    {
      var k := Current();
      if k.None? {
        return;
      }
      if !IsSet(editingId) {
        return;
      }
      var quiz := quizzes[k.value];
      var idx := FindQuestion(quiz.questions, editingId.value);
      if idx.Some? {
        var copy := quiz.questions[idx.value].(id := freshId);
        var qs := InsertAfter(quiz.questions, idx.value, copy);
        assert QuestionIds(qs)[idx.value] == editingId.value;
        ReplaceKeepsCurrent(quizzes, currentId, k.value, quiz.(questions := qs));
        quizzes := quizzes[k.value := quiz.(questions := qs)];
      }
    }

    /** The apply button: the four settings of the open question are replaced. */
    method ApplySettings(s: Settings)
      requires Valid()
      modifies this`quizzes
      ensures Valid()
      ensures Current() == old(Current())
      ensures !IsSet(editingId) ==> quizzes == old(quizzes)
      ensures IsSet(editingId) ==>
                var k := Current().value;
                var quiz := old(quizzes)[k];
                var i := FindQuestion(quiz.questions, editingId.value).value;
                quizzes == old(quizzes)[k := quiz.(questions := quiz.questions[i := WithSettings(quiz.questions[i], s)])]
    {
      var k := Current();
      if k.None? {
        return;
      }
      if !IsSet(editingId) {
        return;
      }
      var quiz := quizzes[k.value];
      var idx := FindQuestion(quiz.questions, editingId.value);
      if idx.Some? {
        var qs := quiz.questions[idx.value := WithSettings(quiz.questions[idx.value], s)];
        assert QuestionIds(qs)[idx.value] == editingId.value;
        ReplaceKeepsCurrent(quizzes, currentId, k.value, quiz.(questions := qs));
        quizzes := quizzes[k.value := quiz.(questions := qs)];
      }
    }

    /** The apply-to-all button: every question of the current quiz gets the
        four settings, and they become the quiz defaults. */
    method ApplyToAll(s: Settings)
      requires Valid()
      modifies this`quizzes
      ensures Valid()
      ensures Current() == old(Current())
      ensures old(Current()).None? ==> quizzes == old(quizzes)
      ensures old(Current()).Some? ==>
                var k := old(Current()).value;
                var quiz := old(quizzes)[k];
                quizzes == old(quizzes)[k := quiz.(questions := ApplyAll(quiz.questions, s),
                                                   defaultTime := s.time, defaultPoints := s.points,
                                                   defaultAnswerMode := s.answerMode)]
    {
      var k := Current();
      if k.None? {
        return;
      }
      var quiz := quizzes[k.value];
      var qs := quiz.questions;
      var i := 0;
      while i < |qs|
        invariant 0 <= i <= |qs| == |quiz.questions|
        invariant forall j :: 0 <= j < i ==> qs[j] == WithSettings(quiz.questions[j], s)
        invariant forall j :: i <= j < |qs| ==> qs[j] == quiz.questions[j]
      {
        qs := qs[i := WithSettings(qs[i], s)];
        i := i + 1;
      }
      assert qs == ApplyAll(quiz.questions, s);
      assert QuestionIds(qs) == QuestionIds(quiz.questions);
      var updated := quiz.(questions := qs, defaultTime := s.time, defaultPoints := s.points,
                           defaultAnswerMode := s.answerMode);
      ReplaceKeepsCurrent(quizzes, currentId, k.value, updated);
      quizzes := quizzes[k.value := updated];
    }

    /** The title input losing focus: the current quiz takes the trimmed title, unless it is blank. */
    method UpdateTitle(input: string)
      requires Valid()
      modifies this`quizzes
      ensures Valid()
      ensures Current() == old(Current())
      ensures old(Current()).None? ==> quizzes == old(quizzes)
      ensures old(Current()).Some? ==>
                var k := old(Current()).value;
                quizzes == old(quizzes)[k := old(quizzes)[k].(title := Retitle(input, old(quizzes)[k].title))]
    {
      var k := Current();
      if k.None? {
        return;
      }
      var quiz := quizzes[k.value];
      var updated := quiz.(title := Retitle(input, quiz.title));
      ReplaceKeepsCurrent(quizzes, currentId, k.value, updated);
      quizzes := quizzes[k.value := updated];
    }
  }
}
