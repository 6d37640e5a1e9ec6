/** The report rows of Code/Services/ExcelExportService.js: the 'Quiz Summary', 'Detailed
    Results' and 'Student Performance' sheets built from the quiz and answer rows, and the
    teacher and lobby filters in front of them. The workbook and file writing, the dates and
    the file names are left out: a workbook here is the three row lists. */
module Export {
  import opened Js
  import opened Quiz

  // ---- Filters ----

  /** `s.filter(p)`. */
  function Filter<T>(s: seq<T>, p: T -> bool): (r: seq<T>)
    ensures |r| <= |s|
    decreases |s|
  {
    if s == [] then [] else Filter(s[..|s| - 1], p) + (if p(s[|s| - 1]) then [s[|s| - 1]] else [])
  }

  /** The filter keeps exactly the elements that pass the test. */
  lemma {:induction false} FilterMembers<T>(s: seq<T>, p: T -> bool)
    ensures forall x :: x in Filter(s, p) <==> x in s && p(x)
    decreases |s|
  {
    if s != [] {
      var init := s[..|s| - 1];
      FilterMembers(init, p);
      assert s == init + [s[|s| - 1]];
    }
  }

  lemma PrefixOfPrefix<T>(s: seq<T>, j: nat)
    requires j < |s|
    ensures s[..j + 1][..j] == s[..j]
  {
  }

  /** Filtering twice keeps what both tests keep, in the same order. */
  lemma {:induction false} FilterTwice<T>(s: seq<T>, p: T -> bool, q: T -> bool, pq: T -> bool)
    requires forall x | x in s :: pq(x) == (p(x) && q(x))
    ensures Filter(Filter(s, p), q) == Filter(s, pq)
    decreases |s|
  {
    if s != [] {
      var init := s[..|s| - 1];
      var x := s[|s| - 1];
      assert s == init + [x];
      forall y | y in init ensures pq(y) == (p(y) && q(y)) {
        assert y in s;
      }
      FilterTwice(init, p, q, pq);
      var f := Filter(init, p);
      if p(x) {
        assert Filter(s, p) == f + [x];
        assert (f + [x])[..|f + [x]| - 1] == f;
      } else {
        assert Filter(s, p) == f;
      }
    }
  }

  /** Two tests that agree on the elements keep the same elements. */
  lemma {:induction false} FilterAgrees<T>(s: seq<T>, p: T -> bool, q: T -> bool)
    requires forall x | x in s :: p(x) == q(x)
    ensures Filter(s, p) == Filter(s, q)
    decreases |s|
  {
    if s != [] {
      var init := s[..|s| - 1];
      forall y | y in init ensures p(y) == q(y) {
        assert y in s;
      }
      FilterAgrees(init, p, q);
      assert s[|s| - 1] in s;
    }
  }

  // ---- Quiz Summary ----

  /** The number a stored score stands for in `+`, `Math.max` and `Math.min`: a null column
      counts as 0 there. */
  function Points(a: AnswerRow): int {
    if a.score.Some? then a.score.value else 0
  }

  /** `s.reduce((sum, a) => sum + a.score, 0)` */
  function Total(s: seq<AnswerRow>): int
    decreases |s|
  {
    if s == [] then 0 else Total(s[..|s| - 1]) + Points(s[|s| - 1])
  }

  /** Scores within `[lo, hi]` add up to between `lo` and `hi` times their number. */
  lemma {:induction false} TotalBounds(s: seq<AnswerRow>, lo: int, hi: int)
    requires forall i | 0 <= i < |s| :: lo <= Points(s[i]) <= hi
    ensures lo * |s| <= Total(s) <= hi * |s|
    decreases |s|
  {
    if s != [] {
      var init := s[..|s| - 1];
      forall i | 0 <= i < |init| ensures lo <= Points(init[i]) <= hi {
        assert init[i] == s[i];
      }
      TotalBounds(init, lo, hi);
      assert lo * |s| == lo * |init| + lo && hi * |s| == hi * |init| + hi;
    }
  }

  /** `answers.filter(a => a.quizId === quiz.id)` */
  function AnswersOf(answers: seq<AnswerRow>, quiz: StoredQuiz): seq<AnswerRow> {
    Filter(answers, (a: AnswerRow) => a.quizId == Str(quiz.id))
  }

  lemma AnswersOfMembers(answers: seq<AnswerRow>, quiz: StoredQuiz)
    ensures forall a :: a in AnswersOf(answers, quiz) <==> a in answers && a.quizId == Str(quiz.id)
  {
    FilterMembers(answers, (a: AnswerRow) => a.quizId == Str(quiz.id));
  }

  /** `Math.round(sum / count)`, or 0 without answers. */
  function AverageScore(s: seq<AnswerRow>): int {
    if |s| > 0 then RoundDiv(Total(s), |s|) else 0
  }

  datatype SummaryRow = SummaryRow(
    quizId: string, title: JsVal, teacher: JsVal, lobbyId: JsVal,
    totalQuestions: nat, totalSubmissions: nat, averageScore: int, status: string)

  function Summarize(quiz: StoredQuiz, answers: seq<AnswerRow>): SummaryRow {
    var quizAnswers := AnswersOf(answers, quiz);
    SummaryRow(quiz.id, quiz.title, quiz.teacherName, quiz.lobbyId, |quiz.questions|,
               |quizAnswers|, AverageScore(quizAnswers), quiz.status)
  }

  /** `createQuizSummarySheet(quizzes, answers)`: one row per quiz, in quiz order. */
  function QuizSummary(quizzes: seq<StoredQuiz>, answers: seq<AnswerRow>): (rows: seq<SummaryRow>)
    ensures |rows| == |quizzes|
  {
    seq(|quizzes|, i requires 0 <= i < |quizzes| => Summarize(quizzes[i], answers))
  }

  /** Each row counts the answers filed under its quiz, and when every score lies in
      `[lo, hi]` (a range holding 0, the average of a quiz nobody answered) so does every
      average. */
  lemma SummaryScoresInRange(quizzes: seq<StoredQuiz>, answers: seq<AnswerRow>, lo: int, hi: int)
    requires lo <= 0 <= hi
    requires forall i | 0 <= i < |answers| :: lo <= Points(answers[i]) <= hi
    ensures forall i | 0 <= i < |quizzes| :: var r := QuizSummary(quizzes, answers)[i];
      && r.quizId == quizzes[i].id && r.totalQuestions == |quizzes[i].questions|
      && r.totalSubmissions == |AnswersOf(answers, quizzes[i])|
      && (forall a | a in answers :: a.quizId == Str(quizzes[i].id) <==> a in AnswersOf(answers, quizzes[i]))
      && lo <= r.averageScore <= hi
      && (r.totalSubmissions == 0 ==> r.averageScore == 0)
  {
    forall i | 0 <= i < |quizzes|
      ensures forall a | a in answers :: a.quizId == Str(quizzes[i].id) <==> a in AnswersOf(answers, quizzes[i])
      ensures lo <= QuizSummary(quizzes, answers)[i].averageScore <= hi
    {
      var s := AnswersOf(answers, quizzes[i]);
      AnswersOfMembers(answers, quizzes[i]);
      if |s| > 0 {
        forall j | 0 <= j < |s| ensures lo <= Points(s[j]) <= hi {
          assert s[j] in s;
          var k :| 0 <= k < |answers| && answers[k] == s[j];
        }
        TotalBounds(s, lo, hi);
        RoundDivBounds(Total(s), |s|, lo, hi);
      }
    }
  }

  // ---- Detailed Results ----

  /** `quizzes.find(q => q.id === id)`, as the index of the first such quiz. */
  function FindQuiz(quizzes: seq<StoredQuiz>, id: JsVal): (r: Option<nat>)
    ensures r.Some? ==> r.value < |quizzes| && Str(quizzes[r.value].id) == id
    ensures r.Some? ==> forall j | 0 <= j < r.value :: Str(quizzes[j].id) != id
    ensures r.None? ==> forall j | 0 <= j < |quizzes| :: Str(quizzes[j].id) != id
  {
    FindFrom(quizzes, id, 0)
  }

  function FindFrom(quizzes: seq<StoredQuiz>, id: JsVal, k: nat): (r: Option<nat>)
    requires k <= |quizzes|
    requires forall j | 0 <= j < k :: Str(quizzes[j].id) != id
    ensures r.Some? ==> k <= r.value < |quizzes| && Str(quizzes[r.value].id) == id
    ensures r.Some? ==> forall j | 0 <= j < r.value :: Str(quizzes[j].id) != id
    ensures r.None? ==> forall j | 0 <= j < |quizzes| :: Str(quizzes[j].id) != id
    decreases |quizzes| - k
  {
    if k == |quizzes| then None
    else if Str(quizzes[k].id) == id then Some(k)
    else FindFrom(quizzes, id, k + 1)
  }

  /** The 'Correct Answer' cell: the option the 1-based `correctAnswer` names, or 'N/A'. */
  function CorrectText(q: Question): JsVal {
    var c := OptionAt(q.options, q.correctAnswer);
    if c.Some? then c.value else Str("N/A")
  }

  /** The 'Student Answer' cell: for a chosen option its text, or 'Option n' out of range;
      without a choice a truthy essay; otherwise 'No Answer'. */
  function StudentText(q: Question, ua: UserAnswer): JsVal {
    if !Nullish(ua.selectedAnswer) then
      var c := OptionAt(q.options, ua.selectedAnswer);
      if c.Some? then c.value else Str("Option " + ToText(ua.selectedAnswer))
    else if Truthy(ua.essayAnswer) then ua.essayAnswer
    else Str("No Answer")
  }

  /** The 'Is Correct' cell. */
  function YesNo(ua: UserAnswer): string {
    if ua.isCorrect.Some? && Truthy(ua.isCorrect.value) then "Yes" else "No"
  }

  datatype DetailRow = DetailRow(
    answerId: JsVal, quizId: JsVal, quizTitle: JsVal, studentName: JsVal, lobbyId: JsVal,
    questionNumber: int, question: JsVal, correctAnswer: JsVal, studentAnswer: JsVal,
    isCorrect: string, finalScore: Option<int>)

  /** The row of the answer at `questionIndex`. */
  function DetailOf(answer: AnswerRow, quiz: StoredQuiz, questionIndex: nat): DetailRow
    requires questionIndex < |answer.answers| && questionIndex < |quiz.questions|
  {
    var question := quiz.questions[questionIndex];
    var userAnswer := answer.answers[questionIndex];
    DetailRow(answer.id, answer.quizId, quiz.title, answer.studentName, answer.lobbyId,
              questionIndex + 1, question.question, CorrectText(question),
              StudentText(question, userAnswer), YesNo(userAnswer), answer.score)
  }

  function Min(a: int, b: int): int {
    if a <= b then a else b
  }

  /** The rows of one answer: one per answered position that has a question. */
  function RowsOf(answer: AnswerRow, quiz: StoredQuiz): (r: seq<DetailRow>)
    ensures |r| == Min(|answer.answers|, |quiz.questions|)
  {
    seq(Min(|answer.answers|, |quiz.questions|),
        i requires 0 <= i < Min(|answer.answers|, |quiz.questions|) => DetailOf(answer, quiz, i))
  }

  lemma RowsOfSnoc(answer: AnswerRow, quiz: StoredQuiz, i: nat)
    requires i < |answer.answers| && i < |quiz.questions|
    ensures RowsOf(answer, quiz)[..i + 1] == RowsOf(answer, quiz)[..i] + [DetailOf(answer, quiz, i)]
  {
    var rows := RowsOf(answer, quiz);
    assert rows[..i + 1] == rows[..i] + [rows[i]];
  }

  /** The rows of `createDetailedResultsSheet`: answers with no quiz add none. */
  function DetailedResults(quizzes: seq<StoredQuiz>, answers: seq<AnswerRow>): seq<DetailRow>
    decreases |answers|
  {
    if answers == [] then []
    else
      var answer := answers[|answers| - 1];
      var found := FindQuiz(quizzes, answer.quizId);
      DetailedResults(quizzes, answers[..|answers| - 1]) + (if found.Some? then RowsOf(answer, quizzes[found.value]) else [])
  }

  /** `createDetailedResultsSheet(quizzes, answers)` */
  method CreateDetailedResultsSheet(quizzes: seq<StoredQuiz>, answers: seq<AnswerRow>) returns (data: seq<DetailRow>)
    ensures data == DetailedResults(quizzes, answers)
  {
    data := [];
    var i := 0;
    while i < |answers|
      invariant 0 <= i <= |answers|
      invariant data == DetailedResults(quizzes, answers[..i])
    {
      var answer := answers[i];
      PrefixOfPrefix(answers, i);
      var found := FindQuiz(quizzes, answer.quizId);
      if found.Some? {
        var rows := AnswerRows(answer, quizzes[found.value]);
        data := data + rows;
      }
      i := i + 1;
    }
    assert answers[..i] == answers;
  }

  /** The inner loop of the sheet: the rows of one answer to `quiz`, one per answered question. */
  method AnswerRows(answer: AnswerRow, quiz: StoredQuiz) returns (data: seq<DetailRow>)
    ensures data == RowsOf(answer, quiz)
  {
    data := [];
    var questionIndex := 0;
    while questionIndex < |answer.answers|
      invariant 0 <= questionIndex <= |answer.answers|
      invariant data == RowsOf(answer, quiz)[..Min(questionIndex, |quiz.questions|)]
    {
      if questionIndex < |quiz.questions| {
        var question := quiz.questions[questionIndex];
        var userAnswer := answer.answers[questionIndex];
        var correctAnswerText := Str("N/A");
        var c := OptionAt(question.options, question.correctAnswer);
        if c.Some? {
          correctAnswerText := c.value;
        }
        var studentAnswerText := Str("No Answer");
        if userAnswer.selectedAnswer != Undefined && userAnswer.selectedAnswer != Null {
          var chosen := OptionAt(question.options, userAnswer.selectedAnswer);
          if chosen.Some? {
            studentAnswerText := chosen.value;
          } else {
            studentAnswerText := Str("Option " + ToText(userAnswer.selectedAnswer));
          }
        } else if Truthy(userAnswer.essayAnswer) {
          studentAnswerText := userAnswer.essayAnswer;
        }
        var isCorrect := if userAnswer.isCorrect.Some? && Truthy(userAnswer.isCorrect.value) then "Yes" else "No";
        data := data + [DetailRow(answer.id, answer.quizId, quiz.title, answer.studentName, answer.lobbyId,
                                  questionIndex + 1, question.question, correctAnswerText,
                                  studentAnswerText, isCorrect, answer.score)];
        RowsOfSnoc(answer, quiz, questionIndex);
      }
      questionIndex := questionIndex + 1;
    }
    assert RowsOf(answer, quiz)[..Min(|answer.answers|, |quiz.questions|)] == RowsOf(answer, quiz);
  }

  /** Every row names a quiz that exists, by its first match: its number is a position of that
      quiz's question list, and its question, title and correct answer are that quiz's. */
  lemma {:induction false} DetailRowsDescribeTheirQuestion(quizzes: seq<StoredQuiz>, answers: seq<AnswerRow>)
    ensures forall r | r in DetailedResults(quizzes, answers) ::
      && FindQuiz(quizzes, r.quizId).Some?
      && var q := quizzes[FindQuiz(quizzes, r.quizId).value];
         && 1 <= r.questionNumber <= |q.questions|
         && r.question == q.questions[r.questionNumber - 1].question
         && r.correctAnswer == CorrectText(q.questions[r.questionNumber - 1])
         && r.quizTitle == q.title
    decreases |answers|
  {
    if answers != [] {
      var init := answers[..|answers| - 1];
      var answer := answers[|answers| - 1];
      DetailRowsDescribeTheirQuestion(quizzes, init);
      var found := FindQuiz(quizzes, answer.quizId);
      if found.Some? {
        var rows := RowsOf(answer, quizzes[found.value]);
        forall r | r in rows
          ensures FindQuiz(quizzes, r.quizId) == found && 1 <= r.questionNumber <= |quizzes[found.value].questions|
        {
          var i :| 0 <= i < |rows| && rows[i] == r;
        }
      }
    }
  }

  /** An answer whose quiz is missing adds no row; any other adds one row per position that
      has both an answer and a question. */
  lemma DetailRowsPerAnswer(quizzes: seq<StoredQuiz>, answers: seq<AnswerRow>, a: AnswerRow)
    ensures var found := FindQuiz(quizzes, a.quizId);
      && (found.None? ==> DetailedResults(quizzes, answers + [a]) == DetailedResults(quizzes, answers))
      && (found.Some? ==> |DetailedResults(quizzes, answers + [a])| == |DetailedResults(quizzes, answers)| + Min(|a.answers|, |quizzes[found.value].questions|))
  {
    assert (answers + [a])[..|answers|] == answers;
  }

  /** A graded answer reads 'Yes' exactly when `submitAnswer` counted it. */
  lemma GradeMarksYes(qs: seq<Question>, i: nat, a: UserAnswer)
    ensures YesNo(Grade(qs, i, a).0) == "Yes" <==> Grade(qs, i, a).1
  {
    if i < |qs| && !IsPilgan(qs[i], a) && IsEssay(qs[i], a) {
      EssayVerdictTruthy(a.essayAnswer);
    }
  }

  /** For an answer list that `submitAnswer` graded against the quiz's questions, a 'Yes' cell
      is exactly a counted answer, and a correctly chosen option shows the same text in both
      answer cells. */
  lemma GradedCellsAgree(qs: seq<Question>, js: seq<UserAnswer>, i: nat)
    requires i < |qs| && i < |js|
    ensures var ua := Enhanced(qs, js)[i];
      && (YesNo(ua) == "Yes" <==> Grade(qs, i, js[i]).1)
      && (IsPilgan(qs[i], js[i]) && Grade(qs, i, js[i]).1 && OptionAt(qs[i].options, qs[i].correctAnswer).Some? ==>
            StudentText(qs[i], ua) == CorrectText(qs[i]))
  {
    GradeMarksYes(qs, i, js[i]);
    if IsPilgan(qs[i], js[i]) {
      assert Enhanced(qs, js)[i].selectedAnswer == js[i].selectedAnswer;
    }
  }

  /** The number of 'Yes' cells among rows. */
  function YesCount(rows: seq<DetailRow>): nat
    decreases |rows|
  {
    if rows == [] then 0 else YesCount(rows[..|rows| - 1]) + (if rows[|rows| - 1].isCorrect == "Yes" then 1 else 0)
  }

  /** The number of answers whose 'Is Correct' cell reads 'Yes'. */
  function Yeses(us: seq<UserAnswer>): nat
    decreases |us|
  {
    if us == [] then 0 else Yeses(us[..|us| - 1]) + (if YesNo(us[|us| - 1]) == "Yes" then 1 else 0)
  }

  /** The rows of an answer for a quiz hold one 'Yes' per 'Yes' answer they show. */
  lemma {:induction false} RowsYes(row: AnswerRow, quiz: StoredQuiz, m: nat)
    requires m <= Min(|row.answers|, |quiz.questions|)
    ensures YesCount(RowsOf(row, quiz)[..m]) == Yeses(row.answers[..m])
  {
    if m > 0 {
      RowsYes(row, quiz, m - 1);
      var rows := RowsOf(row, quiz);
      assert rows[..m][..m - 1] == rows[..m - 1];
      assert row.answers[..m][..m - 1] == row.answers[..m - 1];
    }
  }

  /** `submitAnswer`'s count over the first `n` answers is the number of 'Yes' among them. */
  lemma {:induction false} GradedYes(qs: seq<Question>, js: seq<UserAnswer>, n: nat)
    requires n <= |js|
    ensures Yeses(Enhanced(qs, js)[..n]) == CorrectCount(qs, js[..n])
  {
    if n > 0 {
      GradedYes(qs, js, n - 1);
      GradeMarksYes(qs, n - 1, js[n - 1]);
      var e := Enhanced(qs, js);
      assert e[..n][..n - 1] == e[..n - 1];
      assert js[..n][..n - 1] == js[..n - 1];
    }
  }

  /** Answers past the last question count nothing. */
  lemma {:induction false} CountStopsAtQuestions(qs: seq<Question>, js: seq<UserAnswer>, n: nat)
    requires |qs| <= n <= |js|
    ensures CorrectCount(qs, js[..n]) == CorrectCount(qs, js[..|qs|])
  {
    if n > |qs| {
      CountStopsAtQuestions(qs, js, n - 1);
      assert js[..n][..n - 1] == js[..n - 1];
    }
  }

  /** The rows of an answer `submitAnswer` stored for a quiz hold as many 'Yes' cells as the
      answers it counted towards the score. */
  lemma StoredAnswerYesCount(id: string, d: AnswerData, quiz: StoredQuiz)
    requires |quiz.questions| > 0 && d.jawaban.Some?
    ensures var row := SubmitAnswerSpec(id, d, Some(quiz.questions));
      row.Ok? && YesCount(RowsOf(row.value, quiz)) == CorrectCount(quiz.questions, d.jawaban.value)
  {
    var row := SubmitAnswerSpec(id, d, Some(quiz.questions)).value;
    var qs, js := quiz.questions, d.jawaban.value;
    var m := Min(|js|, |qs|);
    assert row.answers == Enhanced(qs, js);
    RowsYes(row, quiz, m);
    GradedYes(qs, js, m);
    assert RowsOf(row, quiz)[..m] == RowsOf(row, quiz);
    if |qs| < |js| {
      CountStopsAtQuestions(qs, js, |js|);
    }
    assert js[..|js|] == js;
  }

  // ---- Student Performance ----

  /** The property name `studentStats[answer.studentName]` uses. */
  function StudentKey(a: AnswerRow): string {
    ToText(a.studentName)
  }

  /** The students' keys in the order their first answer appears. */
  function StudentKeys(answers: seq<AnswerRow>): seq<string>
    decreases |answers|
  {
    if answers == [] then []
    else
      var ks := StudentKeys(answers[..|answers| - 1]);
      var k := StudentKey(answers[|answers| - 1]);
      if k in ks then ks else ks + [k]
  }

  /** A student's answers, in answer order. */
  function AnswersBy(answers: seq<AnswerRow>, k: string): seq<AnswerRow> {
    Filter(answers, (a: AnswerRow) => StudentKey(a) == k)
  }

  lemma AnswersByMembers(answers: seq<AnswerRow>, k: string)
    ensures forall a :: a in AnswersBy(answers, k) <==> a in answers && StudentKey(a) == k
  {
    FilterMembers(answers, (a: AnswerRow) => StudentKey(a) == k);
  }

  /** Each student appears once among the keys, and exactly the students with an answer do. */
  lemma {:induction false} StudentKeysExactly(answers: seq<AnswerRow>)
    ensures NoDup(StudentKeys(answers))
    ensures forall k :: k in StudentKeys(answers) <==> |AnswersBy(answers, k)| > 0
    decreases |answers|
  {
    if answers != [] {
      var init := answers[..|answers| - 1];
      StudentKeysExactly(init);
    }
  }

  function PointsOf(s: seq<AnswerRow>): (r: seq<int>)
    ensures |r| == |s|
    decreases |s|
  {
    if s == [] then [] else PointsOf(s[..|s| - 1]) + [Points(s[|s| - 1])]
  }

  lemma {:induction false} PointsOfAt(s: seq<AnswerRow>, i: nat)
    requires i < |s|
    ensures PointsOf(s)[i] == Points(s[i])
    decreases |s|
  {
    if i < |s| - 1 {
      PointsOfAt(s[..|s| - 1], i);
    }
  }

  /** `Math.max(...xs)` and `Math.min(...xs)` on a non-empty list. */
  function MaxOf(xs: seq<int>): (m: int)
    requires |xs| > 0
    ensures m in xs && forall i | 0 <= i < |xs| :: xs[i] <= m
    decreases |xs|
  {
    if |xs| == 1 then xs[0]
    else
      var m := MaxOf(xs[..|xs| - 1]);
      assert forall i | 0 <= i < |xs| - 1 :: xs[..|xs| - 1][i] == xs[i];
      if m >= xs[|xs| - 1] then m else xs[|xs| - 1]
  }

  function MinOf(xs: seq<int>): (m: int)
    requires |xs| > 0
    ensures m in xs && forall i | 0 <= i < |xs| :: m <= xs[i]
    decreases |xs|
  {
    if |xs| == 1 then xs[0]
    else
      var m := MinOf(xs[..|xs| - 1]);
      assert forall i | 0 <= i < |xs| - 1 :: xs[..|xs| - 1][i] == xs[i];
      if m <= xs[|xs| - 1] then m else xs[|xs| - 1]
  }

  /** An entry of `studentStats`. */
  datatype Stats = Stats(name: JsVal, totalQuizzes: nat, totalScore: int, scores: seq<int>)

  /** The entry a student's answers add up to; `name` is the first answer's `studentName`. */
  function StatsOf(answers: seq<AnswerRow>, k: string): Stats {
    var mine := AnswersBy(answers, k);
    Stats(if |mine| > 0 then mine[0].studentName else Undefined, |mine|, Total(mine), PointsOf(mine))
  }

  /** A student who sent something has at least one answer. */
  lemma KeyHasAnswers(answers: seq<AnswerRow>, k: string)
    requires k in StudentKeys(answers)
    ensures |AnswersBy(answers, k)| > 0
  {
    StudentKeysExactly(answers);
  }

  datatype PerformanceRow = PerformanceRow(
    studentName: JsVal, totalQuizzes: nat, averageScore: int, bestScore: int, worstScore: int, totalPoints: int)

  function RowOf(s: Stats): PerformanceRow
    requires s.totalQuizzes > 0 && |s.scores| > 0
  {
    PerformanceRow(s.name, s.totalQuizzes, RoundDiv(s.totalScore, s.totalQuizzes), MaxOf(s.scores), MinOf(s.scores), s.totalScore)
  }

  /** The row of the student `k`. */
  function RowOfKey(answers: seq<AnswerRow>, k: string): PerformanceRow
    requires k in StudentKeys(answers)
  {
    KeyHasAnswers(answers, k);
    RowOf(StatsOf(answers, k))
  }

  /** The rows of the students `ks`, in that order. */
  function RowsFor(answers: seq<AnswerRow>, ks: seq<string>): (r: seq<PerformanceRow>)
    requires forall k | k in ks :: k in StudentKeys(answers)
    ensures |r| == |ks|
    decreases |ks|
  {
    if ks == [] then [] else RowsFor(answers, ks[..|ks| - 1]) + [RowOfKey(answers, ks[|ks| - 1])]
  }

  lemma {:induction false} RowsForAt(answers: seq<AnswerRow>, ks: seq<string>, i: nat)
    requires forall k | k in ks :: k in StudentKeys(answers)
    requires i < |ks|
    ensures RowsFor(answers, ks)[i] == RowOfKey(answers, ks[i])
    decreases |ks|
  {
    if i < |ks| - 1 {
      RowsForAt(answers, ks[..|ks| - 1], i);
    }
  }

  lemma RowsForSnoc(answers: seq<AnswerRow>, ks: seq<string>, j: nat)
    requires forall k | k in ks :: k in StudentKeys(answers)
    requires j < |ks|
    ensures RowsFor(answers, ks[..j + 1]) == RowsFor(answers, ks[..j]) + [RowOfKey(answers, ks[j])]
  {
    PrefixOfPrefix(ks, j);
  }

  /** `Object.values(studentStats).map(...)`: one row per student, in property order. */
  function Unsorted(answers: seq<AnswerRow>): seq<PerformanceRow> {
    var keys := StudentKeys(answers);
    PropertyOrderMembers(keys);
    RowsFor(answers, PropertyOrder(keys))
  }

  predicate SortedByAverage(rows: seq<PerformanceRow>) {
    forall i, j | 0 <= i < j < |rows| :: rows[i].averageScore >= rows[j].averageScore
  }

  /** Inserts `x` before the first row whose average is not larger: `x`, which came first,
      stays ahead of the rows with its average. */
  function InsertByAverage(x: PerformanceRow, s: seq<PerformanceRow>): (r: seq<PerformanceRow>)
    ensures |r| == |s| + 1
  {
    if s == [] || s[0].averageScore <= x.averageScore then [x] + s
    else [s[0]] + InsertByAverage(x, s[1..])
  }

  /** `data.sort((a, b) => b['Average Score'] - a['Average Score'])`: a stable sort, highest
      average first. */
  function SortByAverage(s: seq<PerformanceRow>): (r: seq<PerformanceRow>)
    ensures |r| == |s|
  {
    if s == [] then [] else InsertByAverage(s[0], SortByAverage(s[1..]))
  }

  lemma {:induction false} InsertByAveragePerm(x: PerformanceRow, s: seq<PerformanceRow>)
    ensures multiset(InsertByAverage(x, s)) == multiset(s) + multiset{x}
  {
    if s != [] && s[0].averageScore > x.averageScore {
      InsertByAveragePerm(x, s[1..]);
      assert s == [s[0]] + s[1..];
    }
  }

  lemma {:induction false} InsertByAverageSorted(x: PerformanceRow, s: seq<PerformanceRow>)
    requires SortedByAverage(s)
    ensures var r := InsertByAverage(x, s); SortedByAverage(r) && (r[0] == x || (s != [] && r[0] == s[0]))
  {
    if s != [] && s[0].averageScore > x.averageScore {
      var t := InsertByAverage(x, s[1..]);
      InsertByAverageSorted(x, s[1..]);
      assert s[0].averageScore >= t[0].averageScore;
      var r := [s[0]] + t;
      forall i, j | 0 <= i < j < |r| ensures r[i].averageScore >= r[j].averageScore {
        if i == 0 && j > 1 {
          assert r[j] == t[j - 1];
        }
      }
    }
  }

  lemma {:induction false} SortByAveragePerm(s: seq<PerformanceRow>)
    ensures multiset(SortByAverage(s)) == multiset(s)
  {
    if s != [] {
      SortByAveragePerm(s[1..]);
      InsertByAveragePerm(s[0], SortByAverage(s[1..]));
      assert s == [s[0]] + s[1..];
    }
  }

  lemma {:induction false} SortByAverageSorted(s: seq<PerformanceRow>)
    ensures SortedByAverage(SortByAverage(s))
  {
    if s != [] {
      SortByAverageSorted(s[1..]);
      InsertByAverageSorted(s[0], SortByAverage(s[1..]));
    }
  }

  /** The sheet's rows as intended: every student's row, highest average first. */
  function PerformanceCorrected(answers: seq<AnswerRow>): seq<PerformanceRow> {
    SortByAverage(Unsorted(answers))
  }

  /** `createStudentPerformanceSheet(answers)` as written: a student named after a property
      of `Object.prototype` makes it throw, and with it the whole export. */
  function PerformanceAsWritten(answers: seq<AnswerRow>): Result<seq<PerformanceRow>> {
    if exists a | a in answers :: StudentKey(a) in ObjectPrototypeNames
    then Err("Cannot read properties of undefined (reading 'push')")
    else Ok(PerformanceCorrected(answers))
  }

  /** One answer more for the student `key`: the entry `studentStats[key]` after the three
      updates of the `forEach` callback. */
  function Counted(s: Stats, a: AnswerRow): Stats {
    s.(totalQuizzes := s.totalQuizzes + 1, totalScore := s.totalScore + Points(a), scores := s.scores + [Points(a)])
  }

  /** One more answer leaves the entries of the other students as they were. */
  lemma TallyOther(s: seq<AnswerRow>, a: AnswerRow, k: string)
    requires k != StudentKey(a)
    ensures StatsOf(s + [a], k) == StatsOf(s, k)
  {
    assert (s + [a])[..|s|] == s;
    assert AnswersBy(s + [a], k) == AnswersBy(s, k);
  }

  /** The first answer of a student creates the entry `{name, 0, 0, []}` and counts it. */
  lemma TallyNew(s: seq<AnswerRow>, a: AnswerRow)
    requires StudentKey(a) !in StudentKeys(s)
    ensures StatsOf(s + [a], StudentKey(a)) == Counted(Stats(a.studentName, 0, 0, []), a)
  {
    var k := StudentKey(a);
    assert (s + [a])[..|s|] == s;
    NoKeyNoAnswers(s, k);
    var g := AnswersBy(s + [a], k);
    assert g == [a];
    assert g[..0] == [];
    assert Total(g) == Points(a);
    assert PointsOf(g) == [Points(a)];
  }

  lemma NoKeyNoAnswers(s: seq<AnswerRow>, k: string)
    requires k !in StudentKeys(s)
    ensures AnswersBy(s, k) == []
  {
    StudentKeysExactly(s);
  }

  /** A later answer of a student adds its score to the entry. */
  lemma TallyAgain(s: seq<AnswerRow>, a: AnswerRow)
    requires StudentKey(a) in StudentKeys(s)
    ensures StatsOf(s + [a], StudentKey(a)) == Counted(StatsOf(s, StudentKey(a)), a)
  {
    var k := StudentKey(a);
    assert (s + [a])[..|s|] == s;
    var f := AnswersBy(s, k);
    KeyHasAnswers(s, k);
    var g := AnswersBy(s + [a], k);
    assert g == f + [a];
    assert g[..|g| - 1] == f;
    assert g[0] == f[0];
  }

  /** `studentStats` and its key order after the first `n` answers. */
  ghost predicate Tallied(answers: seq<AnswerRow>, n: nat, stats: map<string, Stats>, keys: seq<string>)
    requires n <= |answers|
  {
    && keys == StudentKeys(answers[..n])
    && (forall k :: k in stats <==> k in keys)
    && (forall k | k in stats :: stats[k] == StatsOf(answers[..n], k))
  }

  /** One turn of the `forEach`: the entry for `key` is created if missing, then counted. */
  ghost predicate TallyTurn(a: AnswerRow, stats: map<string, Stats>, keys: seq<string>,
                            stats': map<string, Stats>, keys': seq<string>)
  {
    var key := StudentKey(a);
    var created := if key in stats then stats else stats[key := Stats(a.studentName, 0, 0, [])];
    && keys' == (if key in stats then keys else keys + [key])
    && stats' == created[key := Counted(created[key], a)]
  }

  /** One turn of the `forEach` keeps the tally. */
  lemma TallyStep(answers: seq<AnswerRow>, i: nat, stats: map<string, Stats>, keys: seq<string>,
                  stats': map<string, Stats>, keys': seq<string>)
    requires i < |answers| && Tallied(answers, i, stats, keys)
    requires TallyTurn(answers[i], stats, keys, stats', keys')
    ensures Tallied(answers, i + 1, stats', keys')
  {
    assert answers[..i + 1][..i] == answers[..i];
    forall k | k in stats'
      ensures stats'[k] == StatsOf(answers[..i + 1], k)
    {
      TallyEntry(answers, i, stats, keys, stats', keys', k);
    }
  }

  lemma TallyEntry(answers: seq<AnswerRow>, i: nat, stats: map<string, Stats>, keys: seq<string>,
                   stats': map<string, Stats>, keys': seq<string>, k: string)
    requires i < |answers| && Tallied(answers, i, stats, keys)
    requires TallyTurn(answers[i], stats, keys, stats', keys')
    requires k in stats'
    ensures stats'[k] == StatsOf(answers[..i + 1], k)
  {
    var a := answers[i];
    var before := answers[..i];
    assert answers[..i + 1] == before + [a];
    if k != StudentKey(a) {
      TallyOther(before, a, k);
    } else if k in stats {
      TallyAgain(before, a);
    } else {
      TallyNew(before, a);
    }
  }

  /** `createStudentPerformanceSheet(answers)`: the tally of the `forEach`, the rows of
      `Object.values(studentStats)`, then the sort. */
  method CreateStudentPerformanceSheet(answers: seq<AnswerRow>) returns (r: Result<seq<PerformanceRow>>)
    ensures r == PerformanceAsWritten(answers)
  {
    var studentStats, keys, failed := TallyStudents(answers);
    if failed {
      return Err("Cannot read properties of undefined (reading 'push')");
    }
    var data := StatsRows(answers, studentStats, keys);
    r := Ok(SortByAverage(data));
  }

  /** The `forEach` of the sheet: `studentStats` and the order its keys were created in, or
      `failed` when a student's name is an `Object.prototype` property. */
  method TallyStudents(answers: seq<AnswerRow>) returns (studentStats: map<string, Stats>, keys: seq<string>, failed: bool)
    ensures failed <==> exists a | a in answers :: StudentKey(a) in ObjectPrototypeNames
    ensures !failed ==> keys == StudentKeys(answers)
    ensures !failed ==> forall k :: k in studentStats <==> k in keys
    ensures !failed ==> forall k | k in studentStats :: studentStats[k] == StatsOf(answers, k)
  {
    studentStats := map[];
    keys := [];
    var i := 0;
    while i < |answers|
      invariant 0 <= i <= |answers|
      invariant Tallied(answers, i, studentStats, keys)
      invariant NoPrototypeName(answers[..i])
    {
      var studentName := answers[i].studentName;
      var key := ToText(studentName);
      if key in ObjectPrototypeNames {
        assert answers[i] in answers;
        return studentStats, keys, true;
      }
      NoPrototypeNameStep(answers, i);
      var statsAfter, keysAfter := CountAnswer(studentStats, keys, answers[i]);
      TallyStep(answers, i, studentStats, keys, statsAfter, keysAfter);
      studentStats, keys := statsAfter, keysAfter;
      i := i + 1;
    }
    assert answers[..i] == answers;
    failed := false;
  }

  /** No student of `s` bears an `Object.prototype` name. */
  predicate NoPrototypeName(s: seq<AnswerRow>) {
    forall a | a in s :: StudentKey(a) !in ObjectPrototypeNames
  }

  lemma NoPrototypeNameStep(answers: seq<AnswerRow>, i: nat)
    requires i < |answers| && NoPrototypeName(answers[..i]) && StudentKey(answers[i]) !in ObjectPrototypeNames
    ensures NoPrototypeName(answers[..i + 1])
  {
    assert answers[..i + 1] == answers[..i] + [answers[i]];
  }

  /** The body of the `forEach` for a student whose name is not an `Object.prototype` property. */
  method CountAnswer(studentStats: map<string, Stats>, keys: seq<string>, answer: AnswerRow)
    returns (statsAfter: map<string, Stats>, keysAfter: seq<string>)
    ensures TallyTurn(answer, studentStats, keys, statsAfter, keysAfter)
  {
    var key := ToText(answer.studentName);
    statsAfter, keysAfter := studentStats, keys;
    if key !in statsAfter {
      statsAfter := statsAfter[key := Stats(answer.studentName, 0, 0, [])];
      keysAfter := keysAfter + [key];
    }
    var s := statsAfter[key];
    statsAfter := statsAfter[key := s.(totalQuizzes := s.totalQuizzes + 1, totalScore := s.totalScore + Points(answer), scores := s.scores + [Points(answer)])];
  }

  /** `Object.values(studentStats).map(...)` */
  method StatsRows(answers: seq<AnswerRow>, studentStats: map<string, Stats>, keys: seq<string>) returns (data: seq<PerformanceRow>)
    requires keys == StudentKeys(answers)
    requires forall k | k in keys :: k in studentStats && studentStats[k] == StatsOf(answers, k)
    ensures data == Unsorted(answers)
  {
    var ks := PropertyOrder(keys);
    PropertyOrderMembers(keys);
    data := [];
    var j := 0;
    while j < |ks|
      invariant 0 <= j <= |ks|
      invariant data == RowsFor(answers, ks[..j])
    {
      var student := studentStats[ks[j]];
      KeyHasAnswers(answers, ks[j]);
      RowsForSnoc(answers, ks, j);
      data := data + [PerformanceRow(student.name, student.totalQuizzes, RoundDiv(student.totalScore, student.totalQuizzes),
                                     MaxOf(student.scores), MinOf(student.scores), student.totalScore)];
      j := j + 1;
    }
    assert ks[..j] == ks;
  }

  /** A student's entry: count and total are those of their answers, and the best and worst
      scores bound the average. */
  lemma StatsConsistent(answers: seq<AnswerRow>, k: string)
    requires k in StudentKeys(answers)
    ensures var s := StatsOf(answers, k);
      && s.totalQuizzes > 0 && |s.scores| == s.totalQuizzes && ToText(s.name) == k
      && MinOf(s.scores) <= RoundDiv(s.totalScore, s.totalQuizzes) <= MaxOf(s.scores)
  {
    var mine := AnswersBy(answers, k);
    KeyHasAnswers(answers, k);
    AnswersByMembers(answers, k);
    assert mine[0] in mine;
    var xs := PointsOf(mine);
    forall i | 0 <= i < |mine| ensures MinOf(xs) <= Points(mine[i]) <= MaxOf(xs) {
      PointsOfAt(mine, i);
    }
    TotalBounds(mine, MinOf(xs), MaxOf(xs));
    RoundDivBounds(Total(mine), |mine|, MinOf(xs), MaxOf(xs));
  }

  /** The intended sheet: highest average first, a permutation of the students' rows, each
      row consistent, and a row for the student of every answer holding all of that
      student's answers. */
  lemma PerformanceRowsOfEveryStudent(answers: seq<AnswerRow>)
    ensures SortedByAverage(PerformanceCorrected(answers))
    ensures multiset(PerformanceCorrected(answers)) == multiset(Unsorted(answers))
    ensures forall r | r in PerformanceCorrected(answers) ::
      r.totalQuizzes > 0 && r.worstScore <= r.averageScore <= r.bestScore
    ensures forall a | a in answers :: exists r | r in PerformanceCorrected(answers) ::
      ToText(r.studentName) == StudentKey(a) && r.totalQuizzes == |AnswersBy(answers, StudentKey(a))|
  {
    var u := Unsorted(answers);
    var keys := StudentKeys(answers);
    var ks := PropertyOrder(keys);
    PropertyOrderMembers(keys);
    SortByAverageSorted(u);
    SortByAveragePerm(u);
    var rows := PerformanceCorrected(answers);
    forall r | r in rows ensures r.totalQuizzes > 0 && r.worstScore <= r.averageScore <= r.bestScore {
      assert r in multiset(rows);
      assert r in u;
      var i :| 0 <= i < |u| && u[i] == r;
      RowsForAt(answers, ks, i);
      StatsConsistent(answers, ks[i]);
    }
    forall a | a in answers
      ensures exists r | r in rows :: ToText(r.studentName) == StudentKey(a) && r.totalQuizzes == |AnswersBy(answers, StudentKey(a))|
    {
      var k := StudentKey(a);
      AnswersByMembers(answers, k);
      StudentKeysExactly(answers);
      assert a in AnswersBy(answers, k);
      assert k in keys;
      var i :| 0 <= i < |ks| && ks[i] == k;
      RowsForAt(answers, ks, i);
      StatsConsistent(answers, k);
      assert u[i] in multiset(u);
      assert u[i] in rows;
    }
  }

  /** A student named 'constructor' makes the sheet throw, where the intended sheet lists them
      with their one score. */
  lemma ConstructorBreaksPerformance()
    ensures var a := AnswerRow(Str("a1b2c3d4"), Str("q1w2e3r4"), Str("constructor"), Str("L1"), [], Some(80));
      && PerformanceAsWritten([a]).Err?
      && |PerformanceCorrected([a])| == 1
      && PerformanceCorrected([a])[0] == PerformanceRow(Str("constructor"), 1, 80, 80, 80, 80)
  {
    var a := AnswerRow(Str("a1b2c3d4"), Str("q1w2e3r4"), Str("constructor"), Str("L1"), [], Some(80));
    assert a in [a];
    assert StudentKeys([a]) == ["constructor"];
    assert !IsArrayIndex("constructor") by {
      assert !IsDigit("constructor"[0]);
    }
    OtherKeysIdentity(["constructor"]);
    var mine := AnswersBy([a], "constructor");
    assert mine == [a];
    assert Total(mine) == 80;
    assert PointsOf(mine) == [80];
    assert RoundDiv(80, 1) == 80;
  }

  // ---- The workbook and the export filters ----

  datatype Workbook = Workbook(summary: seq<SummaryRow>, details: seq<DetailRow>, performance: seq<PerformanceRow>)

  /** `exportQuizResults(quizzes, answers)`: the three sheets, or the error that stops it. */
  function ExportQuizResults(quizzes: seq<StoredQuiz>, answers: seq<AnswerRow>): Result<Workbook> {
    var performance := PerformanceAsWritten(answers);
    if performance.Err? then Err(performance.message)
    else Ok(Workbook(QuizSummary(quizzes, answers), DetailedResults(quizzes, answers), performance.value))
  }

  /** The export fails exactly when a student bears an `Object.prototype` name, and otherwise
      holds the intended performance rows. */
  lemma ExportFailsOnlyOnPrototypeNames(quizzes: seq<StoredQuiz>, answers: seq<AnswerRow>)
    ensures ExportQuizResults(quizzes, answers).Err? <==> exists a | a in answers :: StudentKey(a) in ObjectPrototypeNames
    ensures ExportQuizResults(quizzes, answers).Ok? ==>
      ExportQuizResults(quizzes, answers).value.performance == PerformanceCorrected(answers)
  {
  }

  /** The whitespace `parseInt` skips. */
  predicate IsJsSpace(c: char) {
    c == ' ' || c == '\t' || c == '\n' || c == '\r' || c == '\U{000B}' || c == '\U{000C}'
    || c == '\U{00A0}' || c == '\U{FEFF}' || c == '\U{1680}' || ('\U{2000}' <= c <= '\U{200A}')
    || c == '\U{2028}' || c == '\U{2029}' || c == '\U{202F}' || c == '\U{205F}' || c == '\U{3000}'
  }

  function TrimStart(s: string): (r: string)
    ensures |r| <= |s| && r == s[|s| - |r|..]
    ensures r == [] || !IsJsSpace(r[0])
  {
    if s != [] && IsJsSpace(s[0]) then TrimStart(s[1..]) else s
  }

  /** The value of a digit character in bases up to 36; 36 for any other character. */
  function DigitValue(c: char): int {
    if '0' <= c <= '9' then c as int - '0' as int
    else if 'a' <= c <= 'z' then c as int - 'a' as int + 10
    else if 'A' <= c <= 'Z' then c as int - 'A' as int + 10
    else 36
  }

  /** The length of the leading run of digits in base `radix`. */
  function DigitRun(s: string, radix: int): (n: nat)
    ensures n <= |s|
  {
    if s == [] || DigitValue(s[0]) >= radix then 0 else 1 + DigitRun(s[1..], radix)
  }

  function RadixValue(s: string, radix: int): int
    decreases |s|
  {
    if s == [] then 0 else RadixValue(s[..|s| - 1], radix) * radix + DigitValue(s[|s| - 1])
  }

  /** `parseInt(s)`: leading whitespace is skipped, a sign is read, `0x` switches to base 16,
      and the longest run of digits is read; None is NaN. */
  function ParseIntText(s: string): Option<int> {
    ParseSigned(TrimStart(s))
  }

  /** An optional sign, then the digits. */
  function ParseSigned(t: string): Option<int> {
    if t != [] && t[0] == '-' then
      var value := ParseUnsigned(t[1..]);
      if value.None? then None else Some(-value.value)
    else if t != [] && t[0] == '+' then ParseUnsigned(t[1..])
    else ParseUnsigned(t)
  }

  /** The digits after the sign: `0x` switches to base 16; None when no digit follows. */
  function ParseUnsigned(u: string): Option<int> {
    var hex := |u| >= 2 && u[0] == '0' && (u[1] == 'x' || u[1] == 'X');
    var radix := if hex then 16 else 10;
    var digits := if hex then u[2..] else u;
    var n := DigitRun(digits, radix);
    if n == 0 then None else Some(RadixValue(digits[..n], radix))
  }

  function ParseInt(v: JsVal): Option<int> {
    ParseIntText(ToText(v))
  }

  lemma {:induction false} DecimalTextDigits(n: nat)
    ensures var t := DecimalText(n);
      |t| > 0 && AllDigits(t) && DigitsValue(t) == n && (t[0] == '0' ==> n == 0)
    decreases n
  {
    var t := DecimalText(n);
    if n < 10 {
      assert t == [DigitChar(n)];
      assert "0123456789"[n] as int - '0' as int == n;
    } else {
      var h := DecimalText(n / 10);
      DecimalTextDigits(n / 10);
      assert "0123456789"[n % 10] as int - '0' as int == n % 10;
      assert t == h + [DigitChar(n % 10)];
      assert t[..|t| - 1] == h;
      assert t[0] == h[0];
    }
  }

  lemma {:induction false} DecimalRun(s: string)
    requires AllDigits(s)
    ensures DigitRun(s, 10) == |s|
    decreases |s|
  {
    if s != [] {
      DecimalRun(s[1..]);
    }
  }

  lemma {:induction false} DecimalValue(s: string)
    requires AllDigits(s)
    ensures RadixValue(s, 10) == DigitsValue(s)
    decreases |s|
  {
    if s != [] {
      DecimalValue(s[..|s| - 1]);
    }
  }

  /** `parseInt` reads a run of decimal digits, with or without a minus sign in front. */
  lemma ReadsDigits(d: string)
    requires |d| > 0 && AllDigits(d)
    ensures ParseIntText(d) == Some(DigitsValue(d) as int)
  {
    UnsignedDigits(d);
    NoSpaceInFront(d);
    assert d[0] != '-' && d[0] != '+';
  }

  lemma ReadsNegativeDigits(t: string)
    requires |t| > 1 && t[0] == '-' && AllDigits(t[1..])
    ensures ParseIntText(t) == Some(-(DigitsValue(t[1..]) as int))
  {
    UnsignedDigits(t[1..]);
    NoSpaceInFront(t);
    MinusNegates(t, DigitsValue(t[1..]));
  }

  lemma MinusNegates(t: string, v: int)
    requires |t| > 0 && t[0] == '-' && ParseUnsigned(t[1..]) == Some(v)
    ensures ParseSigned(t) == Some(-v)
  {
  }

  lemma UnsignedDigits(d: string)
    requires |d| > 0 && AllDigits(d)
    ensures ParseUnsigned(d) == Some(DigitsValue(d) as int)
  {
    DecimalRun(d);
    DecimalValue(d);
    assert d[..|d|] == d;
    assert |d| >= 2 ==> IsDigit(d[1]);
  }

  lemma NoSpaceInFront(t: string)
    requires |t| > 0 && (IsDigit(t[0]) || t[0] == '-')
    ensures TrimStart(t) == t
  {
  }

  /** `parseInt` reads back the decimal text of every integer, so an id given as a number or
      as its decimal text selects the same teacher. */
  lemma ParseIntReadsDecimal(n: int)
    ensures ParseIntText(DecimalText(n)) == Some(n)
    ensures ParseInt(Num(n)) == Some(n) && ParseInt(Str(DecimalText(n))) == Some(n)
  {
    var m: nat := if n < 0 then -n else n;
    DecimalTextDigits(m);
    if n < 0 {
      var t := DecimalText(n);
      assert t[1..] == DecimalText(m);
      ReadsNegativeDigits(t);
    } else {
      ReadsDigits(DecimalText(m));
    }
  }

  /** `quizzes.filter(q => q.teacherId === parseInt(teacherId))`; NaN equals nothing. */
  function TeacherQuizzes(teacherId: JsVal, quizzes: seq<StoredQuiz>): seq<StoredQuiz> {
    var numericTeacherId := ParseInt(teacherId);
    Filter(quizzes, (q: StoredQuiz) => numericTeacherId.Some? && q.teacherId == Num(numericTeacherId.value))
  }

  /** `answers.filter(a => teacherQuizzes.some(q => q.id === a.quizId))` */
  function TeacherAnswers(teacherQuizzes: seq<StoredQuiz>, answers: seq<AnswerRow>): seq<AnswerRow> {
    Filter(answers, (a: AnswerRow) => exists q | q in teacherQuizzes :: Str(q.id) == a.quizId)
  }

  /** `exportQuizByTeacher(teacherId, quizzes, answers)` */
  function ExportQuizByTeacher(teacherId: JsVal, quizzes: seq<StoredQuiz>, answers: seq<AnswerRow>): Result<Workbook> {
    var teacherQuizzes := TeacherQuizzes(teacherId, quizzes);
    ExportQuizResults(teacherQuizzes, TeacherAnswers(teacherQuizzes, answers))
  }

  /** The teacher's export holds exactly the teacher's quizzes, and each of them keeps all of
      its answers: its summary row is the one the unfiltered data gives. */
  lemma TeacherExportKeepsSubmissions(teacherId: JsVal, quizzes: seq<StoredQuiz>, answers: seq<AnswerRow>)
    ensures forall q | q in quizzes ::
      q in TeacherQuizzes(teacherId, quizzes) <==> ParseInt(teacherId).Some? && q.teacherId == Num(ParseInt(teacherId).value)
    ensures var tq := TeacherQuizzes(teacherId, quizzes);
      QuizSummary(tq, TeacherAnswers(tq, answers)) == QuizSummary(tq, answers)
  {
    var tq := TeacherQuizzes(teacherId, quizzes);
    var numericTeacherId := ParseInt(teacherId);
    FilterMembers(quizzes, (q: StoredQuiz) => numericTeacherId.Some? && q.teacherId == Num(numericTeacherId.value));
    var ta := TeacherAnswers(tq, answers);
    forall i | 0 <= i < |tq| ensures AnswersOf(ta, tq[i]) == AnswersOf(answers, tq[i]) {
      var q := tq[i];
      var some := (a: AnswerRow) => exists q' | q' in tq :: Str(q'.id) == a.quizId;
      var mine := (a: AnswerRow) => a.quizId == Str(q.id);
      var both := (a: AnswerRow) => some(a) && mine(a);
      FilterTwice(answers, some, mine, both);
      assert q in tq;
      FilterAgrees(answers, both, mine);
    }
    assert QuizSummary(tq, ta) == QuizSummary(tq, answers);
  }

  /** `exportQuizByLobby(lobbyId, quizzes, answers)`: quizzes by their lobby, answers by their
      own `lobbyId`. */
  function ExportQuizByLobby(lobbyId: JsVal, quizzes: seq<StoredQuiz>, answers: seq<AnswerRow>): Result<Workbook> {
    ExportQuizResults(Filter(quizzes, (q: StoredQuiz) => q.lobbyId == lobbyId), Filter(answers, (a: AnswerRow) => a.lobbyId == lobbyId))
  }

  /** A quiz of the lobby is summarised over the answers filed under that lobby only: an
      answer to it filed under another lobby id is not counted. */
  lemma LobbyExportCountsLobbyAnswers(lobbyId: JsVal, quizzes: seq<StoredQuiz>, answers: seq<AnswerRow>)
    ensures var lq := Filter(quizzes, (q: StoredQuiz) => q.lobbyId == lobbyId);
      var la := Filter(answers, (a: AnswerRow) => a.lobbyId == lobbyId);
      && (forall q | q in quizzes :: q in lq <==> q.lobbyId == lobbyId)
      && forall i | 0 <= i < |lq| ::
           AnswersOf(la, lq[i]) == Filter(answers, (a: AnswerRow) => a.lobbyId == lobbyId && a.quizId == Str(lq[i].id))
  {
    var lq := Filter(quizzes, (q: StoredQuiz) => q.lobbyId == lobbyId);
    FilterMembers(quizzes, (q: StoredQuiz) => q.lobbyId == lobbyId);
    forall i | 0 <= i < |lq|
      ensures AnswersOf(Filter(answers, (a: AnswerRow) => a.lobbyId == lobbyId), lq[i])
           == Filter(answers, (a: AnswerRow) => a.lobbyId == lobbyId && a.quizId == Str(lq[i].id))
    {
      FilterTwice(answers, (a: AnswerRow) => a.lobbyId == lobbyId, (a: AnswerRow) => a.quizId == Str(lq[i].id),
                  (a: AnswerRow) => a.lobbyId == lobbyId && a.quizId == Str(lq[i].id));
    }
  }
}
