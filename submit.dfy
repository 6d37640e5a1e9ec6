/** The field checks and payloads of `onSubmitSoal` and `onSubmitJawaban` in Code/Server.js,
    the pure part of those handlers: what is refused, and what is sent to the API. */
module Submit {
  import opened Js
  import opened Quiz

  /** The fields of a `submitSoal` message the handler reads or writes. `idLobby`, `namaGuru`
      and `serverID` are overwritten from the connection before the checks; `kodeSoal` is
      undefined until the API answers. */
  datatype SoalForm = SoalForm(
    jenisSoal: JsVal,
    soal: JsVal,
    jawabana: JsVal,
    jawabanb: JsVal,
    jawabanc: JsVal,
    jawaband: JsVal,
    opsi: JsVal,
    timer: JsVal,
    idLobby: JsVal,
    namaGuru: JsVal,
    serverID: JsVal,
    kodeSoal: JsVal)

  const PilganMissing := "Missing required fields for multiple choice question"
  const EssayMissing := "Missing required fields for essay question"
  const UnknownType := "Unknown question type"
  const SubmitFailed := "Failed to submit question"

  /** The checks before any API call: None when the question is accepted, otherwise the
      message of the `errorPesan` the teacher gets. */
  function CheckSoal(f: SoalForm): (r: Option<string>)
    ensures f.jenisSoal == Str("pilgan") ==>
      (r.None? <==>
        Truthy(f.soal) && Truthy(f.jawabana) && Truthy(f.jawabanb) && Truthy(f.jawabanc)
        && Truthy(f.jawaband) && f.opsi != Undefined && Truthy(f.timer))
    ensures f.jenisSoal == Str("essay") ==> (r.None? <==> Truthy(f.soal) && Truthy(f.timer))
    ensures r.Some? ==> r.value == (if f.jenisSoal == Str("pilgan") then PilganMissing
                                    else if f.jenisSoal == Str("essay") then EssayMissing
                                    else UnknownType)
    ensures f.jenisSoal != Str("pilgan") && f.jenisSoal != Str("essay") ==> r == Some(UnknownType)
  {
    if f.jenisSoal == Str("pilgan") then
      if !Truthy(f.soal) || !Truthy(f.jawabana) || !Truthy(f.jawabanb) || !Truthy(f.jawabanc)
         || !Truthy(f.jawaband) || f.opsi == Undefined || !Truthy(f.timer)
      then Some(PilganMissing) else None
    else if f.jenisSoal == Str("essay") then
      if !Truthy(f.soal) || !Truthy(f.timer) then Some(EssayMissing) else None
    else Some(UnknownType)
  }

  /** `questionObj`: the question, its type and timer, and for multiple choice the four
      options in order and the 1-based correct option as sent. */
  function QuestionOf(f: SoalForm): (q: Question)
    ensures q.question == f.soal && q.kind == f.jenisSoal && q.timer == f.timer
    ensures f.jenisSoal == Str("pilgan") ==>
      q.options == Some([f.jawabana, f.jawabanb, f.jawabanc, f.jawaband]) && q.correctAnswer == f.opsi
    ensures f.jenisSoal != Str("pilgan") ==> q.options.None? && q.correctAnswer == Undefined
  {
    if f.jenisSoal == Str("pilgan")
    then Question(f.soal, f.jenisSoal, f.timer, Some([f.jawabana, f.jawabanb, f.jawabanc, f.jawaband]), f.opsi)
    else Question(f.soal, f.jenisSoal, f.timer, None, Undefined)
  }

  /** `soal.substring(0, 50)`. The model counts characters of the string as given, where
      JavaScript counts UTF-16 code units, so a text with characters outside the Basic
      Multilingual Plane is cut at a different place. */
  function Prefix50(s: string): (r: string)
    ensures |r| == if |s| < 50 then |s| else 50
    ensures r <= s
  {
    if |s| < 50 then s else s[..50]
  }

  /** The title `Quiz - ${soal.substring(0, 50)}...`. */
  function Title(soal: string): string {
    "Quiz - " + Prefix50(soal) + "..."
  }

  /** The body `{data: quizData}` posted to '/submit-soal': every field of the message, a title
      and the one question. */
  datatype QuizRequest = QuizRequest(form: SoalForm, title: string, questions: seq<Question>)

  /** `quizData`, after the checks: only a string question text has `substring`; any other
      value throws inside the `try`, which ends in the catch path. */
  function BuildQuiz(f: SoalForm): Option<QuizRequest> {
    if f.soal.Str? then Some(QuizRequest(f, Title(f.soal.s), [QuestionOf(f)])) else None
  }

  /** The title starts with 'Quiz - ', ends with '...', and carries at most the first fifty
      characters of the question between them. */
  lemma TitleShape(soal: string)
    ensures var t := Title(soal);
      && t[..7] == "Quiz - "
      && t[|t| - 3..] == "..."
      && |t| == 10 + (if |soal| < 50 then |soal| else 50)
      && t[7..|t| - 3] <= soal
  {
    var t := Title(soal);
    assert t[7..|t| - 3] == Prefix50(soal);
  }

  /** What the quiz service stores for a question accepted here: the generated title, the
      question as built, and the teacher and room copied from the connection. */
  lemma AcceptedQuizIsStored(f: SoalForm, quizId: string)
    requires CheckSoal(f).None? && BuildQuiz(f).Some?
    ensures var req := BuildQuiz(f).value;
      var q := SubmitQuiz(quizId, QuizInput(f.serverID, f.namaGuru, f.idLobby, Str(req.title), Some(req.questions)));
      && q.title == Str(Title(f.soal.s))
      && q.questions == [QuestionOf(f)]
      && q.teacherId == f.serverID && q.lobbyId == f.idLobby && q.status == "active"
  {
    assert Title(f.soal.s)[..7] == "Quiz - ";
  }

  // ---- onSubmitJawaban ----

  /** One element of a rebuilt `jawaban` list: `{selectedAnswer}` or `{essayAnswer}`. */
  datatype AnswerItem = SelectedAnswer(value: JsVal) | EssayAnswer(value: JsVal)

  /** The `jawaban` field after normalisation: the value the client sent, or a list built here. */
  datatype Jawaban = Sent(value: JsVal) | Built(items: seq<AnswerItem>)

  /** The fields of a `submitJawaban` message that the handler reads. */
  datatype JawabanForm = JawabanForm(id: JsVal, kodeSoal: JsVal, jawaban: JsVal, indexJawaban: JsVal)

  /** The body `{data}` posted to '/submit-jawaban'. */
  datatype JawabanRequest = JawabanRequest(id: JsVal, kodeSoal: JsVal, jawaban: Jawaban, indexJawaban: JsVal, namaSiswa: JsVal, idLobby: string)

  /** The rewriting of `data` before the post, for the sender's username and room id. */
  function NormaliseJawaban(f: JawabanForm, namaSiswa: JsVal, idLobby: string): JawabanRequest {
    var kode := if Truthy(f.id) && !Truthy(f.kodeSoal) then f.id else f.kodeSoal;
    var jawaban :=
      if Truthy(f.jawaban) then Sent(f.jawaban)
      else if f.indexJawaban != Undefined then Built([SelectedAnswer(f.indexJawaban)])
      else if f.jawaban != Undefined then Built([EssayAnswer(Or(f.jawaban, Str(NoAnswerText)))])
      else Built([SelectedAnswer(Null)]);
    JawabanRequest(f.id, kode, jawaban, f.indexJawaban, namaSiswa, idLobby)
  }

  /** The four outcomes of the normalisation, in the order the handler tests them. Since the
      essay branch is only reached with a falsy `jawaban`, its text is always the no-answer text. */
  lemma NormaliseCases(f: JawabanForm, namaSiswa: JsVal, idLobby: string)
    ensures var r := NormaliseJawaban(f, namaSiswa, idLobby);
      && (Truthy(f.id) && !Truthy(f.kodeSoal) ==> r.kodeSoal == f.id)
      && (!(Truthy(f.id) && !Truthy(f.kodeSoal)) ==> r.kodeSoal == f.kodeSoal)
      && (Truthy(f.jawaban) ==> r.jawaban == Sent(f.jawaban))
      && (!Truthy(f.jawaban) && f.indexJawaban != Undefined ==> r.jawaban == Built([SelectedAnswer(f.indexJawaban)]))
      && (!Truthy(f.jawaban) && f.indexJawaban == Undefined && f.jawaban != Undefined ==>
            r.jawaban == Built([EssayAnswer(Str(NoAnswerText))]))
      && (f.jawaban == Undefined && f.indexJawaban == Undefined ==> r.jawaban == Built([SelectedAnswer(Null)]))
      && r.namaSiswa == namaSiswa && r.idLobby == idLobby
  {
  }

  /** A normalised `kodeSoal` is truthy whenever the message had a truthy code or id. */
  lemma NormalisedCodeTruthy(f: JawabanForm, namaSiswa: JsVal, idLobby: string)
    requires Truthy(f.id) || Truthy(f.kodeSoal)
    ensures Truthy(NormaliseJawaban(f, namaSiswa, idLobby).kodeSoal)
  {
  }

  /** The answer list the quiz service grades for a rebuilt `jawaban`. */
  function AsUserAnswers(items: seq<AnswerItem>): (r: seq<UserAnswer>)
    ensures |r| == |items|
  {
    seq(|items|, i requires 0 <= i < |items| =>
      match items[i]
      case SelectedAnswer(v) => UserAnswer(v, Undefined, None, None, None, None)
      case EssayAnswer(v) => UserAnswer(Undefined, v, None, None, None, None))
  }

  /** A student who sent no answer to an essay question scores nothing for it: the rebuilt
      answer carries the no-answer text, which grading rejects. A missing answer to a multiple
      choice question counts only when the stored correct answer is null. */
  lemma UnansweredScoresNothing(f: JawabanForm, namaSiswa: JsVal, idLobby: string, questions: seq<Question>)
    requires !Truthy(f.jawaban) && f.indexJawaban == Undefined && |questions| > 0
    ensures var r := NormaliseJawaban(f, namaSiswa, idLobby);
      r.jawaban.Built? &&
      var g := Grade(questions, 0, AsUserAnswers(r.jawaban.items)[0]);
      (g.1 ==> questions[0].kind == Str("pilgan") && f.jawaban == Undefined && questions[0].correctAnswer == Null)
  {
    var r := NormaliseJawaban(f, namaSiswa, idLobby);
    var a := AsUserAnswers(r.jawaban.items)[0];
    if f.jawaban != Undefined {
      assert a == UserAnswer(Undefined, Str(NoAnswerText), None, None, None, None);
      EssayVerdictTruthy(a.essayAnswer);
    } else {
      assert a == UserAnswer(Null, Undefined, None, None, None, None);
    }
  }
}
