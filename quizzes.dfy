/**
 * The quiz document that the editor (create.js) writes and the player
 * (play.js) reads: `{ quizzes: [...], currentId }`, as in-memory values.
 */
module Quizzes {
  import opened Wrappers

  type Id = string

  /** A numeric field of the stored JSON. `Absent` stands for `undefined`,
      `null` and NaN (NaN is falsy, and JSON stores it as `null`). */
  datatype NumField = Absent | Num(value: real)

  /** JavaScript truthiness of a numeric field: absent and 0 are falsy. */
  predicate Truthy(f: NumField) {
    f.Num? && f.value != 0.0
  }

  /** `a || b` on numeric fields. */
  function OrElse(a: NumField, b: NumField): NumField {
    if Truthy(a) then a else b
  }

  /** `s || fallback` on text fields; a missing text field is modelled as "". */
  function TextOr(s: string, fallback: string): string {
    if s != "" then s else fallback
  }

  /** JavaScript truthiness of a possibly-null id. */
  predicate IsSet(id: Option<Id>) {
    id.Some? && id.value != ""
  }

  datatype Choice = Choice(text: string, isCorrect: bool)

  /** A question; `kind` is the source's `type` field. */
  datatype Question = Question(
    id: Id,
    prompt: string,
    timeLimit: NumField,
    kind: string,
    points: string,
    answerMode: string,
    choices: seq<Choice>,
    media: Option<string>,
    mediaName: Option<string>,
    basePoints: NumField,
    bonusPoints: NumField)

  datatype Quiz = Quiz(
    id: Id,
    title: string,
    desc: string,
    defaultTime: NumField,
    defaultPoints: string,
    defaultAnswerMode: string,
    basePoints: NumField,
    bonusPoints: NumField,
    questions: seq<Question>)

  /** The stored document. */
  datatype Store = Store(quizzes: seq<Quiz>, currentId: Option<Id>)

  /** A fresh quiz as both files build it (title "My Quiz" at startup, "New Quiz" from the add button). */
  function NewQuiz(id: Id, title: string): (r: Quiz)
    ensures r.id == id && r.title == title && r.questions == []
    ensures r.defaultTime == Num(20.0) && Truthy(r.defaultTime)
  {
    Quiz(id, title, "", Num(20.0), "standard", "single", Absent, Absent, [])
  }

  function QuizIds(quizzes: seq<Quiz>): (ids: seq<Id>)
    ensures |ids| == |quizzes|
    ensures forall i :: 0 <= i < |quizzes| ==> ids[i] == quizzes[i].id
  {
    seq(|quizzes|, i requires 0 <= i < |quizzes| => quizzes[i].id)
  }

  function QuestionIds(questions: seq<Question>): (ids: seq<Id>)
    ensures |ids| == |questions|
    ensures forall i :: 0 <= i < |questions| ==> ids[i] == questions[i].id
  {
    seq(|questions|, i requires 0 <= i < |questions| => questions[i].id)
  }

  /** `findIndex(x => x.id === id)`: the FIRST position holding `id`, or none. */
  function IndexOf(ids: seq<Id>, id: Id): (r: Option<nat>)
    ensures r.Some? ==> r.value < |ids| && ids[r.value] == id
    ensures r.Some? ==> forall j :: 0 <= j < r.value ==> ids[j] != id
    ensures r.None? <==> id !in ids
  {
    if |ids| == 0 then None
    else if ids[0] == id then Some(0)
    else match IndexOf(ids[1..], id)
      case None => None
      case Some(k) => Some(k + 1)
  }

  function FindQuiz(quizzes: seq<Quiz>, id: Id): Option<nat> {
    IndexOf(QuizIds(quizzes), id)
  }

  function FindQuestion(questions: seq<Question>, id: Id): Option<nat> {
    IndexOf(QuestionIds(questions), id)
  }

  /** getCurrentQuiz (create.js:48-51, play.js:41-44), as the position of the quiz it returns. */
  function CurrentQuizIndex(quizzes: seq<Quiz>, currentId: Option<Id>): (r: Option<nat>)
    ensures r.Some? <==> IsSet(currentId) && currentId.value in QuizIds(quizzes)
    ensures r.Some? ==> r.value < |quizzes| && quizzes[r.value].id == currentId.value
    ensures r.Some? ==> forall j :: 0 <= j < r.value ==> quizzes[j].id != currentId.value
  {
    if !IsSet(currentId) then None else FindQuiz(quizzes, currentId.value)
  }

  /** Every quiz carries a non-empty id, as the ids the editor generates do. */
  predicate IdsSet(quizzes: seq<Quiz>) {
    forall i :: 0 <= i < |quizzes| ==> quizzes[i].id != ""
  }

  /**
   * The start-up repair that both pages run on the loaded document
   * (create.js:410-417, play.js:269-276): a missing list becomes empty, an
   * empty list receives `fallback`, and a current id that is unset or names
   * no quiz is replaced by the first quiz's id.
   */
  function Normalise(loaded: Option<seq<Quiz>>, currentId: Option<Id>, fallback: Quiz): (r: Store)
    ensures |r.quizzes| > 0
    ensures r.currentId.Some? && r.currentId.value in QuizIds(r.quizzes)
    ensures IdsSet(r.quizzes) ==> CurrentQuizIndex(r.quizzes, r.currentId).Some?
    ensures loaded.Some? && |loaded.value| > 0 ==> r.quizzes == loaded.value
    ensures loaded.Some? && |loaded.value| > 0 && IsSet(currentId) && currentId.value in QuizIds(loaded.value)
            ==> r.currentId == currentId
    ensures loaded.Some? && |loaded.value| > 0 && !(IsSet(currentId) && currentId.value in QuizIds(loaded.value))
            ==> r.currentId == Some(loaded.value[0].id)
    ensures (loaded.None? || |loaded.value| == 0) ==> r.quizzes == [fallback] && r.currentId == Some(fallback.id)
  {
    var quizzes := if loaded.Some? then loaded.value else [];
    var s := if |quizzes| == 0 then Store([fallback], Some(fallback.id)) else Store(quizzes, currentId);
    if !IsSet(s.currentId) || FindQuiz(s.quizzes, s.currentId.value).None?
    then Store(s.quizzes, Some(s.quizzes[0].id))
    else s
  }
}
