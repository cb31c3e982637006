/**
  The saved-analysis record kept in the document store, as the client sees
  it: identity, owner, source file, creation time and the optional
  artifacts. `createdAt` is the creation time in milliseconds since the
  epoch, the value the history ordering compares.
*/
module Records {
  import opened Wrappers
  import AiAnalysis
  import QuizSection
  import FlashcardSection

  /** Which kind of input an analysis was made from. */
  datatype FileType = Audio | Pdf

  datatype AnalysisRecord = AnalysisRecord(
    id: string,
    userId: string,
    fileName: string,
    fileType: FileType,
    createdAt: int,
    transcription: Option<string>,
    note: Option<AiAnalysis.NoteAnalysis>,
    quiz: Option<seq<QuizSection.QuizQuestion>>,
    flashcards: Option<seq<FlashcardSection.Flashcard>>)
}
