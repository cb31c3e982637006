/**
  The signed-in workspace: choosing an audio or PDF source, analysing it into
  a note, a quiz and flashcards, saving the result to the analysis store,
  starting over, and deleting saved analyses from the history.

  The component's state hooks are grouped by concern: the recorder, the
  chosen inputs, the outputs of an analysis, and the saved-analysis library;
  the store requests the component has issued sit beside them. `Session`
  is a snapshot of all of it. The functions below describe each handler on
  a snapshot, and the `Workspace` class holds the state and runs the handlers
  step by step, each proved equal to its function. Every awaited service call
  is an outcome parameter: the text a transcription or extraction produced
  (or its failure), the id the store assigned (or its failure), and the
  endpoint replies the AI client decodes.
*/
module Features {
  import opened Wrappers
  import opened Records
  import AiAnalysis
  import QuizSection
  import FlashcardSection
  import HistorySidebar

  /** A chosen input file; only its name matters to the workspace. */
  datatype SourceFile = SourceFile(name: string)

  /** A piece of recorded audio buffered while recording. */
  datatype AudioChunk = AudioChunk(size: nat)

  /** A rejected service call. */
  datatype Failure = Failure

  /** The fields of a record sent to the store; None stands for a field left out or null. */
  datatype AnalysisData = AnalysisData(
    userId: string,
    fileName: string,
    fileType: FileType,
    transcription: string,
    note: Option<AiAnalysis.NoteAnalysis>,
    quiz: Option<seq<QuizSection.QuizQuestion>>,
    flashcards: Option<seq<FlashcardSection.Flashcard>>)

  /** A request issued to the analysis store. */
  datatype StoreWrite =
    | SaveRecord(data: AnalysisData)
    | UpdateArtifacts(id: string, note: AiAnalysis.NoteAnalysis,
                      quiz: seq<QuizSection.QuizQuestion>, flashcards: seq<FlashcardSection.Flashcard>)
    | DeleteRecord(id: string)

  /**
    `isRecording`, whether the recorder reference is set, the buffered chunks,
    and how many times the recorder has been told to stop.
  */
  datatype Recorder = Recorder(recording: bool, present: bool, chunks: seq<AudioChunk>, stopCalls: nat)

  /** `audioFile`, `pdfFile` and `inputType`. */
  datatype Inputs = Inputs(audioFile: Option<SourceFile>, pdfFile: Option<SourceFile>, inputType: Option<FileType>)

  /** `transcription`, `isAnalyzing`, `note`, `quiz` and `flashcards`. */
  datatype Outputs = Outputs(
    transcription: string,
    analyzing: bool,
    note: Option<AiAnalysis.NoteAnalysis>,
    quiz: Option<seq<QuizSection.QuizQuestion>>,
    flashcards: Option<seq<FlashcardSection.Flashcard>>)

  /** `history`, `currentAnalysis`, `saved` and `analysisId`. */
  datatype Library = Library(
    history: seq<AnalysisRecord>,
    current: Option<AnalysisRecord>,
    saved: bool,
    analysisId: Option<string>)

  datatype Session = Session(recorder: Recorder, inputs: Inputs, outputs: Outputs, library: Library,
                             writes: seq<StoreWrite>)

  const NoInputs: Inputs := Inputs(None, None, None)
  const NoOutputs: Outputs := Outputs("", false, None, None, None)

  /** The state the workspace mounts with. */
  function InitialSession(): Session {
    Session(Recorder(false, false, [], 0), NoInputs, NoOutputs, Library([], None, false, None), [])
  }

  // ---------------------------------------------------------------------
  // Derived values
  // ---------------------------------------------------------------------

  /**
    `currentAnalysis?.fileName || note?.originalText?.fileName || ''`; the
    notes this workspace produces never carry an original-text file name, so
    only the opened analysis contributes.
  */
  function FileNameForHeading(s: Session): (name: string)
    ensures s.library.current.None? ==> name == ""
    ensures s.library.current.Some? ==> name == s.library.current.value.fileName
  {
    var current := s.library.current;
    if current.Some? && current.value.fileName != "" then current.value.fileName else ""
  }

  /** The heading's friendly title; "File" while no named analysis is open. */
  function FileSummary(s: Session): (title: string)
    ensures s.library.current.None? || s.library.current.value.fileName == "" ==> title == "File"
  {
    HistorySidebar.SummarizeFileName(Some(FileNameForHeading(s)))
  }

  /** Some artifact is present. */
  predicate HasArtifacts(s: Session) {
    s.outputs.note.Some? || s.outputs.quiz.Some? || s.outputs.flashcards.Some?
  }

  /** The Save button shows once something was generated or loaded, until it has been saved. */
  predicate SaveVisible(s: Session) {
    HasArtifacts(s) && !s.library.saved
  }

  /** The Analyze button is enabled when a file is chosen and no analysis is running. */
  predicate AnalyzeEnabled(s: Session) {
    !s.outputs.analyzing && (s.inputs.audioFile.Some? || s.inputs.pdfFile.Some?)
  }

  // ---------------------------------------------------------------------
  // File selection
  // ---------------------------------------------------------------------

  /** `handleAudioFileUpload`: no file changes nothing; a file replaces the PDF and clears transcription and note. */
  function SelectAudio(s: Session, file: Option<SourceFile>): (r: Session)
    ensures file.None? ==> r == s
    ensures file.Some? ==> (r.inputs == Inputs(file, None, Some(Audio)) &&
      r.outputs.transcription == "" && r.outputs.note.None? &&
      r.outputs.quiz == s.outputs.quiz && r.outputs.flashcards == s.outputs.flashcards &&
      r.outputs.analyzing == s.outputs.analyzing)
    ensures r.recorder == s.recorder && r.library == s.library && r.writes == s.writes
  {
    if file.None? then s
    else s.(inputs := Inputs(file, None, Some(Audio)), outputs := s.outputs.(transcription := "", note := None))
  }

  /** `handlePdfFileUpload`, the mirror image of `SelectAudio`. */
  function SelectPdf(s: Session, file: Option<SourceFile>): (r: Session)
    ensures file.None? ==> r == s
    ensures file.Some? ==> (r.inputs == Inputs(None, file, Some(Pdf)) &&
      r.outputs.transcription == "" && r.outputs.note.None? &&
      r.outputs.quiz == s.outputs.quiz && r.outputs.flashcards == s.outputs.flashcards &&
      r.outputs.analyzing == s.outputs.analyzing)
    ensures r.recorder == s.recorder && r.library == s.library && r.writes == s.writes
  {
    if file.None? then s
    else s.(inputs := Inputs(None, file, Some(Pdf)), outputs := s.outputs.(transcription := "", note := None))
  }

  /** The last file chosen wins, and a chosen file enables Analyze unless an analysis is running. */
  lemma LastSelectionWins(s: Session, audio: SourceFile, pdf: SourceFile)
    ensures SelectPdf(SelectAudio(s, Some(audio)), Some(pdf)) == SelectPdf(s, Some(pdf))
    ensures SelectAudio(SelectPdf(s, Some(pdf)), Some(audio)) == SelectAudio(s, Some(audio))
    ensures AnalyzeEnabled(SelectAudio(s, Some(audio))) <==> !s.outputs.analyzing
    ensures AnalyzeEnabled(SelectPdf(s, Some(pdf))) <==> !s.outputs.analyzing
  {
  }

  // ---------------------------------------------------------------------
  // Analysis
  // ---------------------------------------------------------------------

  /** The source `handleAnalyze` reads: its kind and its file name. */
  datatype Pick = Pick(fileType: FileType, fileName: string)

  /** The audio file when the input type is audio, the PDF when it is pdf, and nothing otherwise. */
  function Picked(i: Inputs): (p: Option<Pick>)
    ensures p.Some? && p.value.fileType == Audio <==> i.inputType == Some(Audio) && i.audioFile.Some?
    ensures p.Some? && p.value.fileType == Pdf <==> i.inputType == Some(Pdf) && i.pdfFile.Some?
  {
    if i.inputType == Some(Audio) && i.audioFile.Some? then Some(Pick(Audio, i.audioFile.value.name))
    else if i.inputType == Some(Pdf) && i.pdfFile.Some? then Some(Pick(Pdf, i.pdfFile.value.name))
    else None
  }

  /**
    What the services answered during one analysis: the source text (from
    upload and transcription, or PDF extraction), the id the store assigned
    to the initial record, the three endpoint replies and the JSON decoders
    for the quiz and flashcard spans.
  */
  datatype AnalyzeOutcomes = AnalyzeOutcomes(
    source: Result<string, Failure>,
    saved: Result<string, Failure>,
    noteReply: AiAnalysis.Response,
    quizReply: AiAnalysis.Response,
    cardsReply: AiAnalysis.Response,
    decodeQuiz: string -> Option<seq<QuizSection.QuizQuestion>>,
    decodeCards: string -> Option<seq<FlashcardSection.Flashcard>>)

  /** The first record saved for a source text: owner, file name, kind and text, no artifacts yet. */
  function InitialRecord(userId: string, p: Pick, text: string): AnalysisData {
    AnalysisData(userId, p.fileName, p.fileType, text, None, None, None)
  }

  /** The three generators run together: all three artifacts, or the first failure. */
  function Artifacts(apiKey: Option<string>, text: string, o: AnalyzeOutcomes)
    : (r: Option<(AiAnalysis.NoteAnalysis, seq<QuizSection.QuizQuestion>, seq<FlashcardSection.Flashcard>)>)
    ensures r.Some? <==>
      AiAnalysis.AnalyzeText(apiKey, text, o.noteReply).Ok? &&
      AiAnalysis.GenerateQuiz(apiKey, text, o.quizReply, o.decodeQuiz).Ok? &&
      AiAnalysis.GenerateFlashcards(apiKey, text, o.cardsReply, o.decodeCards).Ok?
    ensures r.Some? ==> r.value == (AiAnalysis.AnalyzeText(apiKey, text, o.noteReply).value,
      AiAnalysis.GenerateQuiz(apiKey, text, o.quizReply, o.decodeQuiz).value,
      AiAnalysis.GenerateFlashcards(apiKey, text, o.cardsReply, o.decodeCards).value)
  {
    var n := AiAnalysis.AnalyzeText(apiKey, text, o.noteReply);
    var q := AiAnalysis.GenerateQuiz(apiKey, text, o.quizReply, o.decodeQuiz);
    var f := AiAnalysis.GenerateFlashcards(apiKey, text, o.cardsReply, o.decodeCards);
    if n.Ok? && q.Ok? && f.Ok? then Some((n.value, q.value, f.value)) else None
  }

  /**
    The part of `handleAnalyze` after the text is known: the initial record is
    saved, then the artifacts and their update request appear only when all
    three generators succeed.
  */
  function Generate(s: Session, data: AnalysisData, apiKey: Option<string>, text: string, o: AnalyzeOutcomes): Session {
    var writes := s.writes + [SaveRecord(data)];
    if o.saved.Err? then s.(writes := writes)
    else
      match Artifacts(apiKey, text, o)
      case None => s.(writes := writes)
      case Some((n, q, f)) =>
        s.(outputs := s.outputs.(note := Some(n), quiz := Some(q), flashcards := Some(f)),
           writes := writes + [UpdateArtifacts(o.saved.value, n, q, f)])
  }

  /** `handleAnalyze`. */
  function Analyze(s: Session, user: Option<string>, apiKey: Option<string>, o: AnalyzeOutcomes): Session {
    if user.None? then s
    else
      var s1 := s.(outputs := NoOutputs.(analyzing := true));
      var s2 :=
        match Picked(s.inputs)
        case None => s1
        case Some(p) =>
          match o.source
          case Err(_) => s1
          case Ok(text) =>
            var s3 := if p.fileType == Audio then s1.(outputs := s1.outputs.(transcription := text)) else s1;
            if text == "" then s3 else Generate(s3, InitialRecord(user.value, p, text), apiKey, text, o);
      s2.(outputs := s2.outputs.(analyzing := false))
  }

  /** Without a user nothing happens; otherwise the analysis ends idle and touches only its outputs and the store. */
  lemma AnalyzeFrame(s: Session, user: Option<string>, apiKey: Option<string>, o: AnalyzeOutcomes)
    ensures user.None? ==> Analyze(s, user, apiKey, o) == s
    ensures user.Some? ==>
      var r := Analyze(s, user, apiKey, o);
      !r.outputs.analyzing && r.recorder == s.recorder && r.inputs == s.inputs && r.library == s.library
  {
  }

  /** Whether the run reaches the generators: a source is chosen, it yields non-empty text and the initial save succeeds. */
  predicate ReachesGenerators(s: Session, o: AnalyzeOutcomes) {
    Picked(s.inputs).Some? && o.source.Ok? && o.source.value != "" && o.saved.Ok?
  }

  /**
    All or nothing: note, quiz and flashcards are all present or all absent,
    and they are present exactly when the generators are reached and every
    one of them succeeds; the note is then the decoded analysis reply.
  */
  lemma AnalyzeAllOrNothing(s: Session, user: string, apiKey: Option<string>, o: AnalyzeOutcomes)
    ensures var r := Analyze(s, Some(user), apiKey, o);
      (r.outputs.note.Some? <==> r.outputs.quiz.Some?) && (r.outputs.quiz.Some? <==> r.outputs.flashcards.Some?)
    ensures var r := Analyze(s, Some(user), apiKey, o);
      var text := if o.source.Ok? then o.source.value else "";
      r.outputs.note.Some? <==>
        ReachesGenerators(s, o) &&
        AiAnalysis.AnalyzeText(apiKey, text, o.noteReply).Ok? &&
        AiAnalysis.GenerateQuiz(apiKey, text, o.quizReply, o.decodeQuiz).Ok? &&
        AiAnalysis.GenerateFlashcards(apiKey, text, o.cardsReply, o.decodeCards).Ok?
    ensures var r := Analyze(s, Some(user), apiKey, o);
      r.outputs.note.Some? ==> (o.noteReply.Delivered? && o.noteReply.candidateText.Some? &&
        AiAnalysis.ParseNote(o.noteReply.candidateText.value) == Ok(r.outputs.note.value))
    ensures var r := Analyze(s, Some(user), apiKey, o);
      var text := if o.source.Ok? then o.source.value else "";
      r.outputs.quiz.Some? ==>
        AiAnalysis.GenerateQuiz(apiKey, text, o.quizReply, o.decodeQuiz) == Ok(r.outputs.quiz.value) &&
        AiAnalysis.GenerateFlashcards(apiKey, text, o.cardsReply, o.decodeCards) == Ok(r.outputs.flashcards.value)
  {
    var r := Analyze(s, Some(user), apiKey, o);
    if ReachesGenerators(s, o) {
      var p := Picked(s.inputs).value;
      var text := o.source.value;
      var s1 := s.(outputs := NoOutputs.(analyzing := true));
      var s3 := if p.fileType == Audio then s1.(outputs := s1.outputs.(transcription := text)) else s1;
      var g := Generate(s3, InitialRecord(user, p, text), apiKey, text, o);
      assert r == g.(outputs := g.outputs.(analyzing := false));
    }
  }

  /**
    With no source chosen, a failed source or empty text, nothing is sent to
    the store and no artifact is produced.
  */
  lemma AnalyzeWithoutTextWritesNothing(s: Session, user: string, apiKey: Option<string>, o: AnalyzeOutcomes)
    requires Picked(s.inputs).None? || o.source.Err? || o.source.value == ""
    ensures var r := Analyze(s, Some(user), apiKey, o);
      r.writes == s.writes && !HasArtifacts(r)
  {
  }

  /**
    Once a source yields text, the initial record (owner, file name, kind and
    the text) is the first request sent; the update with the artifacts, if
    any, follows it under the id the store assigned.
  */
  lemma AnalyzeSavesBeforeUpdate(s: Session, user: string, apiKey: Option<string>, o: AnalyzeOutcomes)
    requires Picked(s.inputs).Some? && o.source.Ok? && o.source.value != ""
    ensures var r := Analyze(s, Some(user), apiKey, o);
      var p := Picked(s.inputs).value;
      var first := SaveRecord(AnalysisData(user, p.fileName, p.fileType, o.source.value, None, None, None));
      (r.outputs.note.None? ==> r.writes == s.writes + [first]) &&
      (r.outputs.note.Some? ==> r.writes == s.writes + [first, UpdateArtifacts(o.saved.value,
        r.outputs.note.value, r.outputs.quiz.value, r.outputs.flashcards.value)])
  {
  }

  /** The transcription shows the transcribed text for an audio source and stays empty for a PDF. */
  lemma AnalyzeTranscription(s: Session, user: string, apiKey: Option<string>, o: AnalyzeOutcomes)
    ensures var r := Analyze(s, Some(user), apiKey, o);
      var p := Picked(s.inputs);
      r.outputs.transcription == if p.Some? && p.value.fileType == Audio && o.source.Ok? then o.source.value else ""
  {
  }

  // ---------------------------------------------------------------------
  // Starting over
  // ---------------------------------------------------------------------

  /** `handleReset`: stops a running recorder, then clears the inputs, the outputs and the opened analysis. */
  function Reset(s: Session): Session {
    var stops := if s.recorder.present && s.recorder.recording then s.recorder.stopCalls + 1 else s.recorder.stopCalls;
    s.(recorder := Recorder(false, s.recorder.present, [], stops), inputs := NoInputs, outputs := NoOutputs,
       library := s.library.(current := None))
  }

  /** `handleNewChat`: the same clearing, without touching the recorder. */
  function NewChat(s: Session): Session {
    s.(recorder := s.recorder.(recording := false, chunks := []), inputs := NoInputs, outputs := NoOutputs,
       library := s.library.(current := None))
  }

  /**
    Reset and new chat clear the same fields, back to the mounted state, and
    differ only in asking a running recorder to stop; the history, the saved
    flag and its id, and the store requests survive both.
  */
  lemma ResetMatchesNewChat(s: Session)
    ensures Reset(s) == NewChat(s).(recorder := NewChat(s).recorder.(stopCalls := Reset(s).recorder.stopCalls))
    ensures Reset(s).recorder.stopCalls ==
      if s.recorder.present && s.recorder.recording then s.recorder.stopCalls + 1 else s.recorder.stopCalls
    ensures var i := InitialSession();
      NewChat(s) == i.(recorder := i.recorder.(present := s.recorder.present, stopCalls := s.recorder.stopCalls),
                       library := s.library.(current := None), writes := s.writes)
  {
  }

  // ---------------------------------------------------------------------
  // History, opening, saving and deleting
  // ---------------------------------------------------------------------

  /** `loadHistory`: a signed-in user's records replace the list; a failed read leaves it. */
  function HistoryLoaded(s: Session, user: Option<string>, records: Result<seq<AnalysisRecord>, Failure>): (r: Session)
    ensures user.Some? && records.Ok? ==> r == s.(library := s.library.(history := records.value))
    ensures !(user.Some? && records.Ok?) ==> r == s
  {
    if user.Some? && records.Ok? then s.(library := s.library.(history := records.value)) else s
  }

  /** `loadAnalysis`: a found record becomes the opened analysis, and its parts fill the panels. */
  function AnalysisOpened(s: Session, found: Result<Option<AnalysisRecord>, Failure>): (r: Session)
    ensures found.Ok? && found.value.Some? ==>
      var a := found.value.value;
      r.library.current == Some(a) && r.outputs.transcription == a.transcription.GetOr("") &&
      r.outputs.note == a.note && r.outputs.quiz == a.quiz && r.outputs.flashcards == a.flashcards &&
      r.inputs.inputType == Some(a.fileType)
    ensures found.Ok? && found.value.Some? ==>
      r.recorder == s.recorder && r.writes == s.writes && r.outputs.analyzing == s.outputs.analyzing &&
      r.inputs.audioFile == s.inputs.audioFile && r.inputs.pdfFile == s.inputs.pdfFile &&
      r.library.history == s.library.history && r.library.saved == s.library.saved &&
      r.library.analysisId == s.library.analysisId
    ensures !(found.Ok? && found.value.Some?) ==> r == s
  {
    match found
    case Err(_) => s
    case Ok(None) => s
    case Ok(Some(a)) =>
      s.(library := s.library.(current := Some(a)),
         outputs := s.outputs.(transcription := a.transcription.GetOr(""), note := a.note,
                               quiz := a.quiz, flashcards := a.flashcards),
         inputs := s.inputs.(inputType := Some(a.fileType)))
  }

  /** The record `handleSave` sends: a missing input type counts as pdf, a missing quiz or deck as empty. */
  function SaveData(s: Session, userId: string): (d: AnalysisData)
    ensures d.fileType == (if s.inputs.inputType.Some? then s.inputs.inputType.value else Pdf)
    ensures d.quiz == Some(if s.outputs.quiz.Some? then s.outputs.quiz.value else [])
    ensures d.flashcards == Some(if s.outputs.flashcards.Some? then s.outputs.flashcards.value else [])
    ensures d.userId == userId && d.fileName == FileNameForHeading(s) &&
      d.transcription == s.outputs.transcription && d.note == s.outputs.note
  {
    AnalysisData(userId, FileNameForHeading(s), s.inputs.inputType.GetOr(Pdf), s.outputs.transcription,
                 s.outputs.note, Some(s.outputs.quiz.GetOr([])), Some(s.outputs.flashcards.GetOr([])))
  }

  /** `handleSave`: at most once per workspace, and only for a signed-in user. */
  function Save(s: Session, user: Option<string>, newId: Result<string, Failure>,
                records: Result<seq<AnalysisRecord>, Failure>): Session
  {
    if user.None? || s.library.saved then s
    else
      var s1 := s.(writes := s.writes + [SaveRecord(SaveData(s, user.value))]);
      match newId
      case Err(_) => s1
      case Ok(id) => HistoryLoaded(s1.(library := s1.library.(analysisId := Some(id), saved := true)), user, records)
  }

  /** A first save sends exactly the current record, and marks the workspace saved when the store accepts it. */
  lemma SaveSendsRecord(s: Session, user: string, newId: Result<string, Failure>,
                        records: Result<seq<AnalysisRecord>, Failure>)
    requires !s.library.saved
    ensures var r := Save(s, Some(user), newId, records);
      r.writes == s.writes + [SaveRecord(SaveData(s, user))] && r.outputs == s.outputs &&
      r.library.saved == newId.Ok? &&
      (newId.Ok? ==> r.library.analysisId == Some(newId.value) && !SaveVisible(r))
  {
  }

  /** `handleDelete`: after confirmation, deletes, reloads, and closes the opened analysis only if it is the deleted one. */
  function Delete(s: Session, user: Option<string>, id: string, confirmed: bool, deleted: bool,
                  records: Result<seq<AnalysisRecord>, Failure>): Session
  {
    if !confirmed then s
    else
      var s1 := s.(writes := s.writes + [DeleteRecord(id)]);
      if !deleted then s1
      else
        var s2 := HistoryLoaded(s1, user, records);
        var current := s2.library.current;
        if current.Some? && current.value.id == id then s2.(library := s2.library.(current := None)) else s2
  }

  /** The opened analysis is closed exactly when it is the one deleted; another one stays open. */
  lemma DeleteClosesOnlyDeleted(s: Session, user: Option<string>, id: string,
                                records: Result<seq<AnalysisRecord>, Failure>)
    ensures var r := Delete(s, user, id, true, true, records);
      var current := s.library.current;
      r.writes == s.writes + [DeleteRecord(id)] &&
      (r.library.current.None? <==> current.None? || current.value.id == id) &&
      (r.library.current.Some? ==> r.library.current == current)
    ensures Delete(s, user, id, false, true, records) == s
  {
  }

  // ---------------------------------------------------------------------
  // Runs of handlers
  // ---------------------------------------------------------------------

  /** One handler invocation, with the answers its service calls received. */
  datatype Action =
    | PickAudio(file: Option<SourceFile>)
    | PickPdf(file: Option<SourceFile>)
    | RunAnalysis(apiKey: Option<string>, outcomes: AnalyzeOutcomes)
    | ResetClick
    | NewChatClick
    | SaveClick(newId: Result<string, Failure>, records: Result<seq<AnalysisRecord>, Failure>)
    | DeleteClick(id: string, confirmed: bool, deleted: bool, records: Result<seq<AnalysisRecord>, Failure>)
    | OpenAnalysis(found: Result<Option<AnalysisRecord>, Failure>)

  function Step(s: Session, user: Option<string>, a: Action): Session {
    match a
    case PickAudio(file) => SelectAudio(s, file)
    case PickPdf(file) => SelectPdf(s, file)
    case RunAnalysis(apiKey, o) => Analyze(s, user, apiKey, o)
    case ResetClick => Reset(s)
    case NewChatClick => NewChat(s)
    case SaveClick(newId, records) => Save(s, user, newId, records)
    case DeleteClick(id, confirmed, deleted, records) => Delete(s, user, id, confirmed, deleted, records)
    case OpenAnalysis(found) => AnalysisOpened(s, found)
  }

  function Run(s: Session, user: Option<string>, actions: seq<Action>): Session
    decreases |actions|
  {
    if actions == [] then s else Run(Step(s, user, actions[0]), user, actions[1..])
  }

  /** No handler clears the saved flag. */
  lemma StepKeepsSaved(s: Session, user: Option<string>, a: Action)
    requires s.library.saved
    ensures Step(s, user, a).library.saved
  {
    match a
    case RunAnalysis(apiKey, o) => AnalyzeFrame(s, user, apiKey, o);
    case _ =>
  }

  /** Once saved, the workspace stays saved through any handlers, so Save is a no-op from then on. */
  lemma {:induction false} SaveIsPermanentlyDisabled(s: Session, user: Option<string>, actions: seq<Action>,
                                                     newId: Result<string, Failure>,
                                                     records: Result<seq<AnalysisRecord>, Failure>)
    requires s.library.saved
    ensures Run(s, user, actions).library.saved
    ensures Save(Run(s, user, actions), user, newId, records) == Run(s, user, actions)
    decreases |actions|
  {
    if actions != [] {
      StepKeepsSaved(s, user, actions[0]);
      SaveIsPermanentlyDisabled(Step(s, user, actions[0]), user, actions[1..], newId, records);
    }
  }

  // ---------------------------------------------------------------------
  // The component
  // ---------------------------------------------------------------------

  /** The workspace component's state, updated in place by its handlers. */
  class Workspace {
    const user: Option<string>
    var recorder: Recorder
    var inputs: Inputs
    var outputs: Outputs
    var library: Library
    var writes: seq<StoreWrite>

    function State(): Session
      reads this
    {
      Session(recorder, inputs, outputs, library, writes)
    }

    constructor (user: Option<string>)
      ensures this.user == user && State() == InitialSession()
    {
      this.user := user;
      recorder := Recorder(false, false, [], 0);
      inputs := NoInputs;
      outputs := NoOutputs;
      library := Library([], None, false, None);
      writes := [];
    }

    method HandleAudioFileUpload(file: Option<SourceFile>)
      modifies this
      ensures State() == SelectAudio(old(State()), file)
    {
      if file.None? {
        return;
      }
      inputs := inputs.(audioFile := file);
      inputs := inputs.(pdfFile := None);
      inputs := inputs.(inputType := Some(Audio));
      outputs := outputs.(transcription := "");
      outputs := outputs.(note := None);
    }

    method HandlePdfFileUpload(file: Option<SourceFile>)
      modifies this
      ensures State() == SelectPdf(old(State()), file)
    {
      if file.None? {
        return;
      }
      inputs := inputs.(pdfFile := file);
      inputs := inputs.(audioFile := None);
      inputs := inputs.(inputType := Some(Pdf));
      outputs := outputs.(transcription := "");
      outputs := outputs.(note := None);
    }

    method LoadHistory(records: Result<seq<AnalysisRecord>, Failure>)
      modifies this
      ensures State() == HistoryLoaded(old(State()), user, records)
    {
      if user.None? {
        return;
      }
      if records.Ok? {
        library := library.(history := records.value);
      }
    }

    method LoadAnalysis(found: Result<Option<AnalysisRecord>, Failure>)
      modifies this
      ensures State() == AnalysisOpened(old(State()), found)
    {
      if found.Ok? && found.value.Some? {
        var analysis := found.value.value;
        library := library.(current := Some(analysis));
        outputs := outputs.(transcription := analysis.transcription.GetOr(""));
        outputs := outputs.(note := analysis.note);
        outputs := outputs.(quiz := analysis.quiz);
        outputs := outputs.(flashcards := analysis.flashcards);
        inputs := inputs.(inputType := Some(analysis.fileType));
      }
    }

    /** The awaited part of `handleAnalyze` once the text is known: save, generate, update. */
    method SaveAndGenerate(data: AnalysisData, apiKey: Option<string>, text: string, o: AnalyzeOutcomes)
      modifies this
      ensures State() == Generate(old(State()), data, apiKey, text, o)
    {
      writes := writes + [SaveRecord(data)];
      if o.saved.Err? {
        return;
      }
      var analysisId := o.saved.value;
      var analysis := AiAnalysis.AnalyzeText(apiKey, text, o.noteReply);
      var quizData := AiAnalysis.GenerateQuiz(apiKey, text, o.quizReply, o.decodeQuiz);
      var flashcardData := AiAnalysis.GenerateFlashcards(apiKey, text, o.cardsReply, o.decodeCards);
      if analysis.Ok? && quizData.Ok? && flashcardData.Ok? {
        outputs := outputs.(note := Some(analysis.value));
        outputs := outputs.(quiz := Some(quizData.value));
        outputs := outputs.(flashcards := Some(flashcardData.value));
        writes := writes + [UpdateArtifacts(analysisId, analysis.value, quizData.value, flashcardData.value)];
      }
    }

    method HandleAnalyze(apiKey: Option<string>, o: AnalyzeOutcomes)
      modifies this
      ensures State() == Analyze(old(State()), user, apiKey, o)
    {
      if user.None? {
        return;
      }
      outputs := Outputs("", true, None, None, None);
      var picked := Picked(inputs);
      if picked.Some? && o.source.Ok? {
        var text := o.source.value;
        if picked.value.fileType == Audio {
          outputs := outputs.(transcription := text);
        }
        if text != "" {
          SaveAndGenerate(InitialRecord(user.value, picked.value, text), apiKey, text, o);
        }
      }
      outputs := outputs.(analyzing := false);
    }

    method HandleReset()
      modifies this
      ensures State() == Reset(old(State()))
    {
      if recorder.present && recorder.recording {
        recorder := recorder.(stopCalls := recorder.stopCalls + 1);
      }
      recorder := recorder.(recording := false);
      inputs := Inputs(None, None, None);
      outputs := Outputs("", false, None, None, None);
      library := library.(current := None);
      recorder := recorder.(chunks := []);
    }

    method HandleNewChat()
      modifies this
      ensures State() == NewChat(old(State()))
    {
      recorder := recorder.(recording := false);
      inputs := Inputs(None, None, None);
      outputs := Outputs("", false, None, None, None);
      library := library.(current := None);
      recorder := recorder.(chunks := []);
    }

    method HandleSave(newId: Result<string, Failure>, records: Result<seq<AnalysisRecord>, Failure>)
      modifies this
      ensures State() == Save(old(State()), user, newId, records)
    {
      if user.None? || library.saved {
        return;
      }
      var data := SaveData(State(), user.value);
      writes := writes + [SaveRecord(data)];
      if newId.Ok? {
        library := library.(analysisId := Some(newId.value));
        library := library.(saved := true);
        LoadHistory(records);
      }
    }

    method HandleDelete(id: string, confirmed: bool, deleted: bool, records: Result<seq<AnalysisRecord>, Failure>)
      modifies this
      ensures State() == Delete(old(State()), user, id, confirmed, deleted, records)
    {
      if !confirmed {
        return;
      }
      writes := writes + [DeleteRecord(id)];
      if !deleted {
        return;
      }
      LoadHistory(records);
      if library.current.Some? && library.current.value.id == id {
        library := library.(current := None);
      }
    }
  }
}
