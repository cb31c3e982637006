/**
  The earlier, store-less analyzer page: the same recorder, file choice and
  reset, but an analysis that asks for the note, the quiz and the flashcards
  one after the other and catches each failure on its own, so one artifact
  failing does not lose the others. Only a failure to obtain the source text
  is reported in the transcription.
*/
module OfflineFeatures {
  import opened Wrappers
  import opened Records
  import Text
  import AiAnalysis
  import QuizSection
  import FlashcardSection
  import Features

  /** The note as this page keeps it: the analysed text alongside the decoded analysis. */
  datatype OfflineNote = OfflineNote(originalText: string, analysis: AiAnalysis.NoteAnalysis)

  /** `transcription`, `isAnalyzing`, `note`, `quiz` and `flashcards`. */
  datatype Outputs = Outputs(
    transcription: string,
    analyzing: bool,
    note: Option<OfflineNote>,
    quiz: Option<seq<QuizSection.QuizQuestion>>,
    flashcards: Option<seq<FlashcardSection.Flashcard>>)

  datatype Session = Session(recorder: Features.Recorder, inputs: Features.Inputs, outputs: Outputs)

  const NoOutputs: Outputs := Outputs("", false, None, None, None)

  /** The message the transcription shows when the source text could not be obtained. */
  const SourceErrorMessage: string := "Error occurred during analysis. Please try again."

  function InitialSession(): Session {
    Session(Features.Recorder(false, false, [], 0), Features.NoInputs, NoOutputs)
  }

  /** Some artifact is present. */
  predicate HasArtifacts(s: Session) {
    s.outputs.note.Some? || s.outputs.quiz.Some? || s.outputs.flashcards.Some?
  }

  /** `stopRecording`: only an existing recorder is stopped, and only then does recording end. */
  function Stopped(s: Session): (r: Session)
    ensures !s.recorder.present ==> r == s
    ensures s.recorder.present ==> !r.recorder.recording && r.recorder.stopCalls == s.recorder.stopCalls + 1
    ensures r.inputs == s.inputs && r.outputs == s.outputs && r.recorder.chunks == s.recorder.chunks
  {
    if s.recorder.present then
      s.(recorder := s.recorder.(stopCalls := s.recorder.stopCalls + 1, recording := false))
    else s
  }

  /** `handleAudioFileUpload`. */
  function SelectAudio(s: Session, file: Option<Features.SourceFile>): (r: Session)
    ensures file.None? ==> r == s
    ensures file.Some? ==> (r.inputs == Features.Inputs(file, None, Some(Audio)) &&
      r.outputs == s.outputs.(transcription := "", note := None))
    ensures r.recorder == s.recorder
  {
    if file.None? then s
    else s.(inputs := Features.Inputs(file, None, Some(Audio)), outputs := s.outputs.(transcription := "", note := None))
  }

  /** `handlePdfFileUpload`. */
  function SelectPdf(s: Session, file: Option<Features.SourceFile>): (r: Session)
    ensures file.None? ==> r == s
    ensures file.Some? ==> (r.inputs == Features.Inputs(None, file, Some(Pdf)) &&
      r.outputs == s.outputs.(transcription := "", note := None))
    ensures r.recorder == s.recorder
  {
    if file.None? then s
    else s.(inputs := Features.Inputs(None, file, Some(Pdf)), outputs := s.outputs.(transcription := "", note := None))
  }

  /** What the services answered: the source text, the three endpoint replies and the two JSON decoders. */
  datatype Outcomes = Outcomes(
    source: Result<string, Features.Failure>,
    noteReply: AiAnalysis.Response,
    quizReply: AiAnalysis.Response,
    cardsReply: AiAnalysis.Response,
    decodeQuiz: string -> Option<seq<QuizSection.QuizQuestion>>,
    decodeCards: string -> Option<seq<FlashcardSection.Flashcard>>)

  /** The note attempt: a decoded analysis is kept with the text it came from; a failure leaves no note. */
  function NoteAttempt(apiKey: Option<string>, text: string, o: Outcomes): (n: Option<OfflineNote>)
    ensures n.Some? <==> AiAnalysis.AnalyzeText(apiKey, text, o.noteReply).Ok?
    ensures n.Some? ==> n.value.originalText == text
  {
    match AiAnalysis.AnalyzeText(apiKey, text, o.noteReply)
    case Ok(analysis) => Some(OfflineNote(text, analysis))
    case Err(_) => None
  }

  /** The quiz attempt: its own success or failure, whatever happened to the note. */
  function QuizAttempt(apiKey: Option<string>, text: string, o: Outcomes): (q: Option<seq<QuizSection.QuizQuestion>>)
    ensures q.Some? <==> AiAnalysis.GenerateQuiz(apiKey, text, o.quizReply, o.decodeQuiz).Ok?
    ensures q.Some? ==> AiAnalysis.GenerateQuiz(apiKey, text, o.quizReply, o.decodeQuiz) == Ok(q.value)
  {
    match AiAnalysis.GenerateQuiz(apiKey, text, o.quizReply, o.decodeQuiz)
    case Ok(quiz) => Some(quiz)
    case Err(_) => None
  }

  /** The flashcard attempt, likewise independent. */
  function CardsAttempt(apiKey: Option<string>, text: string, o: Outcomes): (f: Option<seq<FlashcardSection.Flashcard>>)
    ensures f.Some? <==> AiAnalysis.GenerateFlashcards(apiKey, text, o.cardsReply, o.decodeCards).Ok?
    ensures f.Some? ==> AiAnalysis.GenerateFlashcards(apiKey, text, o.cardsReply, o.decodeCards) == Ok(f.value)
  {
    match AiAnalysis.GenerateFlashcards(apiKey, text, o.cardsReply, o.decodeCards)
    case Ok(cards) => Some(cards)
    case Err(_) => None
  }

  /** `handleAnalyze`. */
  function Analyze(s: Session, apiKey: Option<string>, o: Outcomes): Session {
    var s1 := s.(outputs := NoOutputs.(analyzing := true));
    var s2 :=
      match Features.Picked(s.inputs)
      case None => s1
      case Some(p) =>
        match o.source
        case Err(_) => s1.(outputs := s1.outputs.(transcription := SourceErrorMessage))
        case Ok(text) =>
          var s3 := if p.fileType == Audio then s1.(outputs := s1.outputs.(transcription := text)) else s1;
          var s4 := s3.(outputs := s3.outputs.(note := NoteAttempt(apiKey, text, o)));
          if text == "" then s4
          else s4.(outputs := s4.outputs.(quiz := QuizAttempt(apiKey, text, o), flashcards := CardsAttempt(apiKey, text, o)));
    s2.(outputs := s2.outputs.(analyzing := false))
  }

  /** The analysis always ends idle and leaves the recorder and the chosen inputs alone. */
  lemma AnalyzeFrame(s: Session, apiKey: Option<string>, o: Outcomes)
    ensures var r := Analyze(s, apiKey, o);
      !r.outputs.analyzing && r.recorder == s.recorder && r.inputs == s.inputs
  {
  }

  /**
    Each artifact stands or falls on its own: once the source text is
    non-empty, the note, the quiz and the flashcards are each present exactly
    when their own call succeeds, and the note keeps the text it analysed.
  */
  lemma ArtifactsFailIndependently(s: Session, apiKey: Option<string>, o: Outcomes)
    requires Features.Picked(s.inputs).Some? && o.source.Ok? && o.source.value != ""
    ensures var r := Analyze(s, apiKey, o);
      var text := o.source.value;
      (r.outputs.note.Some? <==> AiAnalysis.AnalyzeText(apiKey, text, o.noteReply).Ok?) &&
      (r.outputs.note.Some? ==> r.outputs.note.value == OfflineNote(text, AiAnalysis.AnalyzeText(apiKey, text, o.noteReply).value)) &&
      (r.outputs.quiz.Some? <==> AiAnalysis.GenerateQuiz(apiKey, text, o.quizReply, o.decodeQuiz).Ok?) &&
      (r.outputs.quiz.Some? ==> AiAnalysis.GenerateQuiz(apiKey, text, o.quizReply, o.decodeQuiz) == Ok(r.outputs.quiz.value)) &&
      (r.outputs.flashcards.Some? <==> AiAnalysis.GenerateFlashcards(apiKey, text, o.cardsReply, o.decodeCards).Ok?) &&
      (r.outputs.flashcards.Some? ==>
        AiAnalysis.GenerateFlashcards(apiKey, text, o.cardsReply, o.decodeCards) == Ok(r.outputs.flashcards.value))
  {
  }

  /** The quiz and flashcards do not depend on the note's reply at all. */
  lemma NoteFailureDoesNotBlockOthers(s: Session, apiKey: Option<string>, o: Outcomes, otherReply: AiAnalysis.Response)
    ensures var r := Analyze(s, apiKey, o);
      var r' := Analyze(s, apiKey, o.(noteReply := otherReply));
      r'.outputs.quiz == r.outputs.quiz && r'.outputs.flashcards == r.outputs.flashcards
  {
  }

  /** When the source text cannot be obtained, the transcription shows the error message and nothing is generated. */
  lemma SourceFailureReported(s: Session, apiKey: Option<string>, o: Outcomes)
    requires Features.Picked(s.inputs).Some? && o.source.Err?
    ensures var r := Analyze(s, apiKey, o);
      r.outputs.transcription == SourceErrorMessage && !HasArtifacts(r)
  {
  }

  /** Blank or absent text produces no artifact: the note call rejects it and the others are not made. */
  lemma BlankTextGeneratesNothing(s: Session, apiKey: Option<string>, o: Outcomes)
    requires Features.Picked(s.inputs).None? || (o.source.Ok? && o.source.value == "")
    ensures !HasArtifacts(Analyze(s, apiKey, o))
  {
    if Features.Picked(s.inputs).Some? {
      Text.TrimOfTrimmed("");
    }
  }

  /** `handleReset`: stops a running recorder and returns everything else to the mounted state. */
  function Reset(s: Session): Session {
    var stops := if s.recorder.present && s.recorder.recording then s.recorder.stopCalls + 1 else s.recorder.stopCalls;
    Session(Features.Recorder(false, s.recorder.present, [], stops), Features.NoInputs, NoOutputs)
  }

  /** After a reset the page is as mounted, except for the recorder it may still hold. */
  lemma ResetRestoresInitial(s: Session)
    ensures var i := InitialSession();
      Reset(s) == i.(recorder := i.recorder.(present := s.recorder.present, stopCalls := Reset(s).recorder.stopCalls))
    ensures !HasArtifacts(Reset(s)) && Reset(s).outputs.transcription == ""
  {
  }

  /** The page's state, updated in place by its handlers. */
  class AnalyzerPage {
    var recorder: Features.Recorder
    var inputs: Features.Inputs
    var outputs: Outputs

    function State(): Session
      reads this
    {
      Session(recorder, inputs, outputs)
    }

    constructor ()
      ensures State() == InitialSession()
    {
      recorder := Features.Recorder(false, false, [], 0);
      inputs := Features.NoInputs;
      outputs := NoOutputs;
    }

    method StopRecording()
      modifies this
      ensures State() == Stopped(old(State()))
    {
      if recorder.present {
        recorder := recorder.(stopCalls := recorder.stopCalls + 1);
        recorder := recorder.(recording := false);
      }
    }

    method HandleAudioFileUpload(file: Option<Features.SourceFile>)
      modifies this
      ensures State() == SelectAudio(old(State()), file)
    {
      if file.None? {
        return;
      }
      inputs := inputs.(audioFile := file);
      inputs := inputs.(pdfFile := None);
      inputs := inputs.(inputType := Some(Audio));
      outputs := outputs.(transcription := "");
      outputs := outputs.(note := None);
    }

    method HandlePdfFileUpload(file: Option<Features.SourceFile>)
      modifies this
      ensures State() == SelectPdf(old(State()), file)
    {
      if file.None? {
        return;
      }
      inputs := inputs.(pdfFile := file);
      inputs := inputs.(audioFile := None);
      inputs := inputs.(inputType := Some(Pdf));
      outputs := outputs.(transcription := "");
      outputs := outputs.(note := None);
    }

    /** The three calls in turn, each with its own failure handling, on the outputs the analysis has just cleared. */
    method GenerateEach(apiKey: Option<string>, text: string, o: Outcomes)
      requires outputs.note.None? && outputs.quiz.None? && outputs.flashcards.None?
      modifies this
      ensures var s := old(State());
        var s4 := s.(outputs := s.outputs.(note := NoteAttempt(apiKey, text, o)));
        State() == if text == "" then s4
          else s4.(outputs := s4.outputs.(quiz := QuizAttempt(apiKey, text, o), flashcards := CardsAttempt(apiKey, text, o)))
    {
      var analysis := AiAnalysis.AnalyzeText(apiKey, text, o.noteReply);
      if analysis.Ok? {
        outputs := outputs.(note := Some(OfflineNote(text, analysis.value)));
      }
      if text != "" {
        var quizData := AiAnalysis.GenerateQuiz(apiKey, text, o.quizReply, o.decodeQuiz);
        if quizData.Ok? {
          outputs := outputs.(quiz := Some(quizData.value));
        } else {
          outputs := outputs.(quiz := None);
        }
        var flashcardData := AiAnalysis.GenerateFlashcards(apiKey, text, o.cardsReply, o.decodeCards);
        if flashcardData.Ok? {
          outputs := outputs.(flashcards := Some(flashcardData.value));
        } else {
          outputs := outputs.(flashcards := None);
        }
      }
    }

    method HandleAnalyze(apiKey: Option<string>, o: Outcomes)
      modifies this
      ensures State() == Analyze(old(State()), apiKey, o)
    {
      outputs := Outputs("", true, None, None, None);
      var picked := Features.Picked(inputs);
      if picked.Some? {
        if o.source.Err? {
          outputs := outputs.(transcription := SourceErrorMessage);
        } else {
          var text := o.source.value;
          if picked.value.fileType == Audio {
            outputs := outputs.(transcription := text);
          }
          GenerateEach(apiKey, text, o);
        }
      }
      outputs := outputs.(analyzing := false);
    }

    method HandleReset()
      modifies this
      ensures State() == Reset(old(State()))
    {
      if recorder.present && recorder.recording {
        recorder := recorder.(stopCalls := recorder.stopCalls + 1);
      }
      recorder := recorder.(recording := false);
      inputs := Features.Inputs(None, None, None);
      outputs := Outputs("", false, None, None, None);
      recorder := recorder.(chunks := []);
    }
  }
}
