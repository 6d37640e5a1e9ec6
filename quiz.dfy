/** The grading and scoring rules of Code/Services/QuizService.js. The database is left out:
    the rows a query would return are inputs, and the row an INSERT would store is the result. */
module Quiz {
  import opened Js

  datatype Result<T> = Ok(value: T) | Err(message: string)

  /** What a student who did not answer an essay question is recorded as having written. */
  const NoAnswerText := "Siswa Tidak Menjawab"

  /** A stored question: `{question, type, timer}`, and for multiple choice also `options`
      (None when absent) and the 1-based `correctAnswer` (undefined when absent). */
  datatype Question = Question(question: JsVal, kind: JsVal, timer: JsVal, options: Option<seq<JsVal>>, correctAnswer: JsVal)

  /** One entry of an answer list. `selectedAnswer` and `essayAnswer` are undefined when the
      entry has no such property; the other fields are None when the property is absent. */
  datatype UserAnswer = UserAnswer(
    selectedAnswer: JsVal,
    essayAnswer: JsVal,
    isCorrect: Option<JsVal>,
    questionType: Option<JsVal>,
    correctAnswer: Option<JsVal>,
    selectedOption: Option<JsVal>)

  /** `options && v >= 1 && v <= options.length ? options[v - 1] : ...`: the option that a
      1-based choice `v` names, if any. The comparisons and the subtraction convert `v` to a
      number. */
  function OptionAt(options: Option<seq<JsVal>>, v: JsVal): (r: Option<JsVal>)
    ensures r.Some? <==> options.Some? && ToNumber(v).Some? && 1 <= ToNumber(v).value <= |options.value|
    ensures r.Some? ==> r.value == options.value[ToNumber(v).value - 1]
  {
    if options.Some? && ToNumber(v).Some? && 1 <= ToNumber(v).value <= |options.value|
    then Some(options.value[ToNumber(v).value - 1])
    else None
  }

  /** `essayAnswer && essayAnswer !== 'Siswa Tidak Menjawab'`: the falsy answer itself, or a boolean. */
  function EssayVerdict(e: JsVal): JsVal {
    And(e, Bool(e != Str(NoAnswerText)))
  }

  lemma EssayVerdictTruthy(e: JsVal)
    ensures Truthy(EssayVerdict(e)) <==> Truthy(e) && e != Str(NoAnswerText)
  {
  }

  predicate IsPilgan(q: Question, a: UserAnswer) {
    q.kind == Str("pilgan") && a.selectedAnswer != Undefined
  }

  predicate IsEssay(q: Question, a: UserAnswer) {
    q.kind == Str("essay") && a.essayAnswer != Undefined
  }

  function MarkUnknown(a: UserAnswer): UserAnswer {
    a.(isCorrect := Some(Bool(false)), questionType := Some(Str("unknown")))
  }

  /** The callback of `jawaban.map` in `submitAnswer` for the answer `a` at index `i`: the
      enhanced answer, and whether `correctCount` was incremented. */
  function Grade(questions: seq<Question>, i: nat, a: UserAnswer): (UserAnswer, bool) {
    if i < |questions| then
      var q := questions[i];
      if IsPilgan(q, a) then
        var ok := q.correctAnswer == a.selectedAnswer;
        var chosen := OptionAt(q.options, a.selectedAnswer);
        (a.(isCorrect := Some(Bool(ok)), questionType := Some(Str("pilgan")),
            correctAnswer := Some(q.correctAnswer),
            selectedOption := Some(if chosen.Some? then chosen.value else Null)), ok)
      else if IsEssay(q, a) then
        var v := EssayVerdict(a.essayAnswer);
        (a.(isCorrect := Some(v), questionType := Some(Str("essay"))), Truthy(v))
      else (MarkUnknown(a), false)
    else (MarkUnknown(a), false)
  }

  /** The enhanced answer list. */
  function Enhanced(questions: seq<Question>, answers: seq<UserAnswer>): (r: seq<UserAnswer>)
    ensures |r| == |answers|
    ensures forall i | 0 <= i < |answers| :: r[i] == Grade(questions, i, answers[i]).0
  {
    seq(|answers|, i requires 0 <= i < |answers| => Grade(questions, i, answers[i]).0)
  }

  /** The final value of `correctCount`. */
  function CorrectCount(questions: seq<Question>, answers: seq<UserAnswer>): nat
    decreases |answers|
  {
    if answers == [] then 0
    else
      var n := |answers| - 1;
      CorrectCount(questions, answers[..n]) + (if Grade(questions, n, answers[n]).1 then 1 else 0)
  }

  /** `Math.round((correctCount / questions.length) * 100)`; None is the NaN of an empty list. */
  function Score(correct: nat, total: nat): Option<int> {
    if total == 0 then None else Some(RoundDiv(100 * correct, total))
  }

  /** The fields of `answerData` that `submitAnswer` reads; `jawaban` is None when it is not
      an array, so that `jawaban.map` throws. */
  datatype AnswerData = AnswerData(kodeSoal: JsVal, namaSiswa: JsVal, idLobby: JsVal, jawaban: Option<seq<UserAnswer>>)

  /** A row of the `answers` table. */
  datatype AnswerRow = AnswerRow(id: JsVal, quizId: JsVal, studentName: JsVal, lobbyId: JsVal, answers: seq<UserAnswer>, score: Option<int>)

  /** The row `submitAnswer` stores, given the answer id `nanoid(8)` draws and the stored
      questions of quiz `kodeSoal` (None when there is no such row or its questions are empty). */
  function SubmitAnswerSpec(answerId: string, data: AnswerData, stored: Option<seq<Question>>): Result<AnswerRow> {
    if stored.None? then Err("Quiz not found")
    else if data.jawaban.None? then Err("answerData.jawaban.map is not a function")
    else
      var qs := stored.value;
      var js := data.jawaban.value;
      Ok(AnswerRow(Str(answerId), data.kodeSoal, data.namaSiswa, Or(data.idLobby, Str("")),
                   Enhanced(qs, js), Score(CorrectCount(qs, js), |qs|)))
  }

  /** `submitAnswer(answerData)`: the loop is the `map` callback with its `correctCount++`. */
  method SubmitAnswer(answerId: string, data: AnswerData, stored: Option<seq<Question>>) returns (r: Result<AnswerRow>)
    ensures r == SubmitAnswerSpec(answerId, data, stored)
  {
    if stored.None? {
      return Err("Quiz not found");
    }
    if data.jawaban.None? {
      return Err("answerData.jawaban.map is not a function");
    }
    var questions := stored.value;
    var jawaban := data.jawaban.value;
    var correctCount := 0;
    var enhanced := [];
    var i := 0;
    while i < |jawaban|
      invariant 0 <= i <= |jawaban|
      invariant enhanced == Enhanced(questions, jawaban[..i])
      invariant correctCount == CorrectCount(questions, jawaban[..i])
    {
      var (e, counted) := Grade(questions, i, jawaban[i]);
      if counted {
        correctCount := correctCount + 1;
      }
      enhanced := enhanced + [e];
      assert jawaban[..i + 1][..i] == jawaban[..i];
      i := i + 1;
    }
    assert jawaban[..i] == jawaban;
    var score := Score(correctCount, |questions|);
    r := Ok(AnswerRow(Str(answerId), data.kodeSoal, data.namaSiswa, Or(data.idLobby, Str("")), enhanced, score));
  }

  // ---- Properties of grading ----

  /** A multiple-choice answer is correct exactly when the stored `correctAnswer` is strictly
      equal to the selected answer; `selectedOption` is the option it names, or null. */
  lemma PilganGrading(questions: seq<Question>, i: nat, a: UserAnswer)
    requires i < |questions| && IsPilgan(questions[i], a)
    ensures var (e, counted) := Grade(questions, i, a);
      var chosen := OptionAt(questions[i].options, a.selectedAnswer);
      && counted == (questions[i].correctAnswer == a.selectedAnswer)
      && e.isCorrect == Some(Bool(counted))
      && e.questionType == Some(Str("pilgan"))
      && e.correctAnswer == Some(questions[i].correctAnswer)
      && e.selectedOption == Some(if chosen.Some? then chosen.value else Null)
      && e.selectedAnswer == a.selectedAnswer && e.essayAnswer == a.essayAnswer
  {
  }

  /** An essay answer counts exactly when it is non-empty and is not the no-answer text. */
  lemma EssayGrading(questions: seq<Question>, i: nat, a: UserAnswer)
    requires i < |questions| && IsEssay(questions[i], a)
    ensures var (e, counted) := Grade(questions, i, a);
      && (counted <==> Truthy(a.essayAnswer) && a.essayAnswer != Str(NoAnswerText))
      && e.questionType == Some(Str("essay"))
      && e == a.(isCorrect := Some(EssayVerdict(a.essayAnswer)), questionType := Some(Str("essay")))
  {
    EssayVerdictTruthy(a.essayAnswer);
  }

  /** Without a question at its index, or with the field its type needs missing, an answer is
      marked incorrect and of type 'unknown', and keeps its other fields. */
  lemma UnknownGrading(questions: seq<Question>, i: nat, a: UserAnswer)
    requires i >= |questions| || (!IsPilgan(questions[i], a) && !IsEssay(questions[i], a))
    ensures Grade(questions, i, a) == (a.(isCorrect := Some(Bool(false)), questionType := Some(Str("unknown"))), false)
  {
  }

  /** Every correct answer sits at an index that has a question, so the count is bounded by
      both the number of answers and the number of questions. */
  lemma {:induction false} CountBounded(questions: seq<Question>, answers: seq<UserAnswer>)
    ensures CorrectCount(questions, answers) <= |answers|
    ensures CorrectCount(questions, answers) <= |questions|
    decreases |answers|
  {
    if answers != [] {
      CountBounded(questions, answers[..|answers| - 1]);
    }
  }

  /** With at least one question the score is a whole percentage in [0, 100]; with none it is NaN. */
  lemma ScoreIsPercentage(questions: seq<Question>, answers: seq<UserAnswer>)
    ensures var s := Score(CorrectCount(questions, answers), |questions|);
      && (s.None? <==> |questions| == 0)
      && (s.Some? ==> 0 <= s.value <= 100)
  {
    if |questions| > 0 {
      CountBounded(questions, answers);
      var c := CorrectCount(questions, answers);
      assert 0 * |questions| <= 100 * c <= 100 * |questions|;
      RoundDivBounds(100 * c, |questions|, 0, 100);
    }
  }

  /** All answers right gives 100, none right gives 0. */
  lemma ScoreExtremes(total: nat)
    requires total > 0
    ensures Score(total, total) == Some(100) && Score(0, total) == Some(0)
  {
    RoundDivBounds(100 * total, total, 100, 100);
    RoundDivBounds(0, total, 0, 0);
  }

  // ---- calculateScore ----

  /** Whether `calculateScore` counts the answer at index `i`: there is a question and its
      `correctAnswer` is strictly equal to the `selectedAnswer`, whatever the question's type. */
  predicate CountedAsWritten(questions: seq<Question>, i: nat, a: UserAnswer) {
    i < |questions| && questions[i].correctAnswer == a.selectedAnswer
  }

  function CountAsWritten(questions: seq<Question>, answers: seq<UserAnswer>): nat
    decreases |answers|
  {
    if answers == [] then 0
    else
      var n := |answers| - 1;
      CountAsWritten(questions, answers[..n]) + (if CountedAsWritten(questions, n, answers[n]) then 1 else 0)
  }

  /** `calculateScore(userAnswers, quizId)` as written: 0 without the quiz, otherwise the
      percentage of answers whose `selectedAnswer` equals the question's `correctAnswer`. */
  method CalculateScore(userAnswers: seq<UserAnswer>, stored: Option<seq<Question>>) returns (score: Option<int>)
    ensures stored.None? ==> score == Some(0)
    ensures stored.Some? ==> score == Score(CountAsWritten(stored.value, userAnswers), |stored.value|)
  {
    if stored.None? {
      return Some(0);
    }
    var questions := stored.value;
    var correctCount := 0;
    var i := 0;
    while i < |userAnswers|
      invariant 0 <= i <= |userAnswers|
      invariant correctCount == CountAsWritten(questions, userAnswers[..i])
    {
      if i < |questions| && questions[i].correctAnswer == userAnswers[i].selectedAnswer {
        correctCount := correctCount + 1;
      }
      assert userAnswers[..i + 1][..i] == userAnswers[..i];
      i := i + 1;
    }
    assert userAnswers[..i] == userAnswers;
    score := Score(correctCount, |questions|);
  }

  /** An essay question carries no `correctAnswer` and an essay answer no `selectedAnswer`:
      both are undefined, so `calculateScore` counts an unanswered essay as correct, while
      `submitAnswer` grades the same answer wrong. */
  lemma CalculateScoreCountsUnansweredEssay()
    ensures var qs := [Question(Str("Explain"), Str("essay"), Num(60), None, Undefined)];
      var ans := [UserAnswer(Undefined, Str(NoAnswerText), None, None, None, None)];
      && Score(CountAsWritten(qs, ans), |qs|) == Some(100)
      && Score(CorrectCount(qs, ans), |qs|) == Some(0)
  {
    var qs := [Question(Str("Explain"), Str("essay"), Num(60), None, Undefined)];
    var ans := [UserAnswer(Undefined, Str(NoAnswerText), None, None, None, None)];
    assert ans[..0] == [];
    assert CountAsWritten(qs, ans) == 1;
    assert CorrectCount(qs, ans) == 0;
    ScoreExtremes(1);
  }

  /** `calculateScore` with the test that `submitAnswer` applies: it counts what `submitAnswer`
      counts, so the two agree on every stored quiz. */
  method CalculateScoreCorrected(userAnswers: seq<UserAnswer>, stored: Option<seq<Question>>) returns (score: Option<int>)
    ensures stored.None? ==> score == Some(0)
    ensures stored.Some? ==> score == Score(CorrectCount(stored.value, userAnswers), |stored.value|)
    ensures forall id: string, d: AnswerData | stored.Some? && d.jawaban == Some(userAnswers) ::
      SubmitAnswerSpec(id, d, stored).Ok? && SubmitAnswerSpec(id, d, stored).value.score == score
  {
    if stored.None? {
      return Some(0);
    }
    var questions := stored.value;
    var correctCount := 0;
    var i := 0;
    while i < |userAnswers|
      invariant 0 <= i <= |userAnswers|
      invariant correctCount == CorrectCount(questions, userAnswers[..i])
    {
      if Grade(questions, i, userAnswers[i]).1 {
        correctCount := correctCount + 1;
      }
      assert userAnswers[..i + 1][..i] == userAnswers[..i];
      i := i + 1;
    }
    assert userAnswers[..i] == userAnswers;
    score := Score(correctCount, |questions|);
  }

  // ---- The isCorrect back-fill of getAllAnswers and getAnswersByQuiz ----

  /** The callback of `parsedAnswers.map`: an answer with an own `isCorrect` is returned as it
      is; any other is given one, and `questionType` is the question's type or 'unknown'. */
  function Recompute(questions: seq<Question>, i: nat, a: UserAnswer): UserAnswer {
    if a.isCorrect.Some? then a
    else
      var verdict :=
        if i < |questions| && IsPilgan(questions[i], a) then Bool(questions[i].correctAnswer == a.selectedAnswer)
        else if i < |questions| && IsEssay(questions[i], a) then EssayVerdict(a.essayAnswer)
        else Bool(false);
      a.(isCorrect := Some(verdict), questionType := Some(if i < |questions| then questions[i].kind else Str("unknown")))
  }

  function BackFill(questions: seq<Question>, answers: seq<UserAnswer>): (r: seq<UserAnswer>)
    ensures |r| == |answers|
    ensures forall i | 0 <= i < |answers| :: r[i] == Recompute(questions, i, answers[i])
  {
    seq(|answers|, i requires 0 <= i < |answers| => Recompute(questions, i, answers[i]))
  }

  /** Stored verdicts are never overwritten, and afterwards every answer has one. */
  lemma BackFillKeepsStored(questions: seq<Question>, answers: seq<UserAnswer>)
    ensures forall i | 0 <= i < |answers| && answers[i].isCorrect.Some? :: BackFill(questions, answers)[i] == answers[i]
    ensures forall i | 0 <= i < |answers| :: BackFill(questions, answers)[i].isCorrect.Some?
  {
  }

  /** Back-filling twice changes nothing more. */
  lemma BackFillIdempotent(questions: seq<Question>, answers: seq<UserAnswer>)
    ensures BackFill(questions, BackFill(questions, answers)) == BackFill(questions, answers)
  {
    var once := BackFill(questions, answers);
    assert forall i | 0 <= i < |once| :: once[i].isCorrect.Some?;
  }

  /** A recomputed verdict is the verdict `submitAnswer` would have stored. The type recorded
      differs in one case: a question whose type does not fit the answer keeps its own type
      here, where `submitAnswer` records 'unknown'. */
  lemma BackFillAgreesWithGrade(questions: seq<Question>, i: nat, a: UserAnswer)
    requires a.isCorrect.None?
    ensures Recompute(questions, i, a).isCorrect == Grade(questions, i, a).0.isCorrect
    ensures i >= |questions| || IsPilgan(questions[i], a) || IsEssay(questions[i], a) ==>
      Recompute(questions, i, a).questionType == Grade(questions, i, a).0.questionType
    ensures i < |questions| && !IsPilgan(questions[i], a) && !IsEssay(questions[i], a) ==>
      Recompute(questions, i, a).questionType == Some(questions[i].kind)
  {
  }

  /** A row of `SELECT id, questions FROM quizzes`. */
  datatype QuizRow = QuizRow(id: JsVal, questions: seq<Question>)

  /** `quizMap[key] || []` after `quizMap[quiz.id] = questions` for every row in turn: the
      questions of the last row whose id has the property name `key`. */
  function QuestionsFor(quizzes: seq<QuizRow>, key: string): seq<Question>
    decreases |quizzes|
  {
    if quizzes == [] then []
    else if ToText(quizzes[|quizzes| - 1].id) == key then quizzes[|quizzes| - 1].questions
    else QuestionsFor(quizzes[..|quizzes| - 1], key)
  }

  function BackFillRow(questions: seq<Question>, row: AnswerRow): AnswerRow {
    row.(answers := BackFill(questions, row.answers))
  }

  /** `getAllAnswers()` over the answer rows and quiz rows it reads. */
  function GetAllAnswers(answers: seq<AnswerRow>, quizzes: seq<QuizRow>): (r: seq<AnswerRow>)
    ensures |r| == |answers|
    ensures forall i | 0 <= i < |answers| ::
      r[i] == BackFillRow(QuestionsFor(quizzes, ToText(answers[i].quizId)), answers[i])
  {
    seq(|answers|, i requires 0 <= i < |answers| => BackFillRow(QuestionsFor(quizzes, ToText(answers[i].quizId)), answers[i]))
  }

  /** `getAnswersByQuiz(quizId)` over the rows with that quiz id and the quiz's stored
      questions (None when there is no such quiz or its questions are empty). */
  function GetAnswersByQuiz(answers: seq<AnswerRow>, stored: Option<seq<Question>>): (r: seq<AnswerRow>)
    ensures |r| == |answers|
    ensures forall i | 0 <= i < |answers| ::
      r[i] == BackFillRow(if stored.Some? then stored.value else [], answers[i])
  {
    var questions := if stored.Some? then stored.value else [];
    seq(|answers|, i requires 0 <= i < |answers| => BackFillRow(questions, answers[i]))
  }

  /** The two reports agree on a row of a quiz that appears once among the quiz rows. */
  lemma {:induction false} ReportsAgree(quizzes: seq<QuizRow>, k: nat, row: AnswerRow)
    requires k < |quizzes| && ToText(quizzes[k].id) == ToText(row.quizId)
    requires forall j | 0 <= j < |quizzes| && j != k :: ToText(quizzes[j].id) != ToText(row.quizId)
    ensures GetAllAnswers([row], quizzes) == GetAnswersByQuiz([row], Some(quizzes[k].questions))
    decreases |quizzes|
  {
    LastRowWins(quizzes, k, ToText(row.quizId));
  }

  lemma {:induction false} LastRowWins(quizzes: seq<QuizRow>, k: nat, key: string)
    requires k < |quizzes| && ToText(quizzes[k].id) == key
    requires forall j | 0 <= j < |quizzes| && j != k :: ToText(quizzes[j].id) != key
    ensures QuestionsFor(quizzes, key) == quizzes[k].questions
    decreases |quizzes|
  {
    if k < |quizzes| - 1 {
      var init := quizzes[..|quizzes| - 1];
      forall j | 0 <= j < |init| && j != k ensures ToText(init[j].id) != key {
        assert init[j] == quizzes[j];
      }
      LastRowWins(init, k, key);
    }
  }

  // ---- submitQuiz ----

  /** The fields of `quizData` that `submitQuiz` stores; `questions` is None when absent or falsy. */
  datatype QuizInput = QuizInput(serverID: JsVal, namaGuru: JsVal, idLobby: JsVal, title: JsVal, questions: Option<seq<Question>>)

  /** A row of the `quizzes` table. */
  datatype StoredQuiz = StoredQuiz(id: string, teacherId: JsVal, teacherName: JsVal, lobbyId: JsVal, title: JsVal, questions: seq<Question>, status: string)

  /** `submitQuiz(quizData)` with the id `nanoid(8)` draws: the stored title is never empty,
      the question list defaults to [] and the status is always 'active'. */
  function SubmitQuiz(quizId: string, d: QuizInput): (q: StoredQuiz)
    ensures Truthy(q.title) && (Truthy(d.title) ==> q.title == d.title) && (!Truthy(d.title) ==> q.title == Str("Quiz"))
    ensures q.questions == (if d.questions.Some? then d.questions.value else [])
    ensures q.status == "active" && q.id == quizId
    ensures q.teacherId == d.serverID && q.teacherName == d.namaGuru && q.lobbyId == d.idLobby
  {
    StoredQuiz(quizId, d.serverID, d.namaGuru, d.idLobby, Or(d.title, Str("Quiz")),
               if d.questions.Some? then d.questions.value else [], "active")
  }
}
