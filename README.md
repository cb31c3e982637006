# Expression detector: a verified model of the client's own logic

The application lets a signed-in user choose an audio recording or a PDF,
turns it into text (a speech-to-text service for audio, page-by-page text
extraction for PDFs), and asks a generative-language endpoint for three study
artifacts: a note (summary, key points, simplified text), a multiple-choice
quiz and a deck of flashcards. Analyses are saved to a document store and
listed, newest first, in a history sidebar.

This project models the parts of that client that are its own logic rather
than calls into other services:

- `text.dfy` (module `Text`): the JavaScript string primitives the client
  relies on (`trim`, `split`, `join`, `indexOf`/`lastIndexOf`, ASCII
  `toUpperCase`), with their laws (`Join` after `Split` is the identity, and
  so on).
- `wrappers.dfy`: `Option` and `Result`.
- `ai_analysis.dfy` (module `AiAnalysis`): the credential and blank-input
  checks of the three AI calls, the marker parser that decodes an analysis
  reply into a note, and the bracketed-span extraction for quiz and flashcard
  replies. The HTTP reply is an input (`Response`) and JSON decoding is a
  function supplied by the caller.
- `quiz_section.dfy`, `flashcard_section.dfy`: the quiz panel (answer
  slots, submit, retry) and the flashcard viewer (clamped index, flip), each
  as a class whose handlers are proved equal to pure step functions.
- `pdf_utils.dfy` (module `PdfUtils`): the page-concatenation loop of PDF
  text extraction, over a document given as its pages' text items.
- `records.dfy`, `history_sidebar.dfy`: the saved-analysis record, the
  friendly title derived from a file name, and the newest-first history
  ordering.
- `features.dfy` (module `Features`): the signed-in workspace. Its state
  hooks are grouped into a recorder, the chosen inputs, the outputs of an
  analysis, the saved-analysis library and the list of store requests the
  component has issued. The class `Workspace` runs each handler step by step
  and is proved equal to a function on snapshots. Every awaited service result
  (transcribed or extracted text, store ids, endpoint replies) is an outcome
  parameter.
- `offline_features.dfy` (module `OfflineFeatures`): the earlier store-less
  page, whose analysis catches a failure of each artifact on its own.

Behaviours of the code worth noting:

- The record-backed workspace joins the three generators with `Promise.all`.
  One failure therefore loses all three artifacts and skips the update
  request (`Features.AnalyzeAllOrNothing`). Only the store-less page
  captures each failure on its own (`OfflineFeatures.ArtifactsFailIndependently`).
- PDF extraction writes a newline after every page, including the last. It
  does not put newlines only between pages (`PdfUtils.AllPagesEnds`).
- Choosing a new file clears the transcription and the note but keeps the
  quiz and the flashcards of an earlier analysis (`Features.SelectAudio`).
- Without a signed-in user the workspace's analysis does nothing at all. It
  does not run and keep its results only in view state (`Features.AnalyzeFrame`).
- A quiz or flashcard reply with no bracketed span is reported as "not
  found". This is a failure distinct from a span that does not decode
  (`AiAnalysis.ReplyWithoutArrayNotFound`, `AiAnalysis.RejectedSpanMalformed`).
- The span pattern is greedy. It reaches from the first `[` to the last `]`,
  which need not be a balanced pair (`AiAnalysis.ExtractArray`).

## Model

| member | source | states |
|---|---|---|
| Text.ToUpper | src/pages/Features.tsx:53 | lower-case ASCII letters map to their upper-case letter; every other character is unchanged |
| Text.TrimStartSpec | src/services/aiAnalysis.ts:62 | the leading-whitespace strip removes exactly a whitespace prefix and leaves a result that does not start with whitespace |
| Text.TrimEndSpec | src/services/aiAnalysis.ts:62 | the trailing-whitespace strip removes exactly a whitespace suffix and leaves a result that does not end with whitespace |
| Text.TrimIsTrimmed | src/services/aiAnalysis.ts:62 | `Trim` (`trim`, the start strip followed by the end strip) leaves no whitespace at either end |
| Text.TrimOfTrimmed | src/services/aiAnalysis.ts:18 | a string without whitespace at its ends is unchanged by `trim` (so `""` stays blank) |
| Text.TrimIdempotent | src/services/aiAnalysis.ts:65-67 | trimming twice equals trimming once |
| Text.Find | src/services/aiAnalysis.ts:62 | the index of the leftmost occurrence of a pattern, or -1 exactly when it never occurs |
| Text.Split | src/services/aiAnalysis.ts:64 | `split` yields at least one piece and no piece contains the separator |
| Text.JoinSplit | src/components/HistorySidebar.tsx:19-21 | joining the pieces of a split with the same separator gives back the original string |
| Text.SplitJoin | src/components/HistorySidebar.tsx:19-21 | splitting a join of separator-free pieces gives back the pieces |
| Text.FirstIndexOf | src/services/aiAnalysis.ts:106 | the position of the first occurrence of a character, or -1 when it is absent |
| Text.LastIndexOf | src/services/aiAnalysis.ts:106 | the position of the last occurrence of a character, or -1 when it is absent |
| AiAnalysis.After | src/services/aiAnalysis.ts:62 | there is text after a marker exactly when the marker occurs |
| AiAnalysis.AfterSpec | src/services/aiAnalysis.ts:62 | the text after a marker is the suffix that follows its leftmost occurrence |
| AiAnalysis.UpTo | src/services/aiAnalysis.ts:62-63 | the lazily matched section is never longer than the text it is taken from |
| AiAnalysis.UpToSpec | src/services/aiAnalysis.ts:62-63 | the lazy section match stops at the leftmost stop marker, or runs to the end of the reply when there is none |
| AiAnalysis.Summary | src/services/aiAnalysis.ts:62 | the summary is trimmed, and it is empty when the `Summary:` marker is absent |
| AiAnalysis.KeyPointLine | src/services/aiAnalysis.ts:65-67 | a line is kept exactly when its trimmed form starts with `-`, and the kept point is trimmed |
| AiAnalysis.KeyPointsFromLines | src/services/aiAnalysis.ts:64-67 | there are no more points than lines, and every point is trimmed |
| AiAnalysis.KeyPointsFromLinesAppend | src/services/aiAnalysis.ts:64-67 | decoding distributes over concatenated lines, so points keep their line order |
| AiAnalysis.KeyPoints | src/services/aiAnalysis.ts:63-67 | every key point is trimmed, and there are none without the `Key Points:` marker |
| AiAnalysis.SimplifiedText | src/services/aiAnalysis.ts:68 | the simplified text is trimmed, and it is empty without the `Simplified Text:` marker |
| AiAnalysis.ParseNote | src/services/aiAnalysis.ts:62-78 | decoding succeeds exactly when summary, simplified text and at least one key point are found; it then returns those three, and otherwise fails with a parse error |
| AiAnalysis.ParsedNoteWellFormed | src/services/aiAnalysis.ts:70-78 | a decoded note has non-empty trimmed fields and at least one point; a reply missing any marker never decodes |
| AiAnalysis.AnalyzeText | src/services/aiAnalysis.ts:13-83 | the shared checks (`InputError`): a missing credential fails first and blank text second; the call succeeds exactly when both checks pass, a candidate text was delivered and it decodes, and the result is then that decoding |
| AiAnalysis.ExtractArray | src/services/aiAnalysis.ts:106-107 | a span is found exactly when some `]` follows some `[`; the span starts with `[` and ends with `]` |
| AiAnalysis.ExtractArraySpan | src/services/aiAnalysis.ts:106 | the reply is a prefix with no `[`, then the span, then a suffix with no `]`: the match is greedy |
| AiAnalysis.GenerateArray | src/services/aiAnalysis.ts:85-146 | the shape shared by `GenerateQuiz` and `GenerateFlashcards`: the credential and blank-text checks come first, a failed request fails next, a reply without a bracketed span fails as not found and a span the decoder rejects as malformed; the call succeeds exactly when a delivered reply has a span the decoder accepts, and returns that decoding |
| AiAnalysis.ReplyWithoutArrayNotFound | src/services/aiAnalysis.ts:106-107 | a quiz or flashcard reply with no `[`...`]` pair fails as "not found" whatever the decoder |
| AiAnalysis.RejectedSpanMalformed | src/services/aiAnalysis.ts:108-113 | a span the decoder rejects fails as unparseable, and an accepted quiz span is the result |
| AiAnalysis.BulletLines | src/services/aiAnalysis.ts:25-28 | one bullet line per key point |
| AiAnalysis.PromptedReplyDecodes | src/services/aiAnalysis.ts:23-29 | a reply written in the prompted format decodes to exactly the summary, points and simplified text it was written from |
| QuizSection.Unanswered | src/components/QuizSection.tsx:14 | one empty answer slot per question |
| QuizSection.Initial | src/components/QuizSection.tsx:14-15 | results hidden; one empty slot per question, or none without a quiz |
| QuizSection.Select | src/components/QuizSection.tsx:25-32 | ignored once results are shown; otherwise slot `q` holds the option and every other slot and the length are unchanged |
| QuizSection.Submit | src/components/QuizSection.tsx:34 | results shown, answers kept |
| QuizSection.Retry | src/components/QuizSection.tsx:35-38 | back to the initial state: every slot empty, results hidden |
| QuizSection.InitialSubmitDisabled | src/components/QuizSection.tsx:92 | `SubmitEnabled` (no slot is null): a fresh or retried quiz can be submitted only when it has no questions |
| QuizSection.MarkedWrongIffIncorrectChoice | src/components/QuizSection.tsx:55-57 | for `IsCorrect` (line 78), `OptionMarkedCorrect` and `OptionMarkedWrong` (lines 56-57): once results are shown, the chosen option is marked wrong exactly when the question is not answered correctly, and then it is not marked correct |
| QuizSection.Run | src/components/QuizSection.tsx:25-38 | any run of clicks keeps one slot per question |
| QuizSection.ChoicesAfterSubmitIgnored | src/components/QuizSection.tsx:26 | after submitting, option clicks change nothing |
| QuizSection.ChooseFromRecords | src/components/QuizSection.tsx:27-31 | choosing picks for the remaining questions records exactly those picks and keeps the earlier answers |
| QuizSection.AnsweringAllEnablesSubmit | src/components/QuizSection.tsx:92 | answering every question enables Submit, and each slot holds its pick |
| QuizSection.QuizSession.constructor | src/components/QuizSection.tsx:14-15 | the panel starts in the initial state for its quiz |
| QuizSection.QuizSession.HandleSelect | src/components/QuizSection.tsx:25-32 | the new state is `Select` of the old one |
| QuizSection.QuizSession.HandleSubmit | src/components/QuizSection.tsx:34 | the new state is `Submit` of the old one |
| QuizSection.QuizSession.HandleRetry | src/components/QuizSection.tsx:35-38 | the new state is the initial one |
| FlashcardSection.NavigationStaysInDeck | src/components/FlashcardSection.tsx:42-49 | `PrevIndex` (`max(0, i-1)`) and `NextIndex` (`min(n-1, i+1)`) keep an index of a non-empty deck inside it and move at most one step |
| FlashcardSection.DisabledExactlyAtEnds | src/components/FlashcardSection.tsx:43-50 | Previous would not move exactly at the first card, and Next exactly at the last, where `PreviousDisabled` and `NextDisabled` disable each button |
| FlashcardSection.NavigateStaysInDeck | src/components/FlashcardSection.tsx:13-49 | any run of Previous and Next presses (`Navigate`) keeps the index in the deck |
| FlashcardSection.NextReachesLast | src/components/FlashcardSection.tsx:49 | enough presses of Next reach the last card and stay there |
| FlashcardSection.FlashcardViewer.constructor | src/components/FlashcardSection.tsx:13-16 | the viewer starts on the first card, front up |
| FlashcardSection.FlashcardViewer.Shown | src/components/FlashcardSection.tsx:37 | the back when flipped, otherwise the front |
| FlashcardSection.FlashcardViewer.Previous | src/components/FlashcardSection.tsx:42 | index moves to `max(0, i-1)`, front up, still in the deck |
| FlashcardSection.FlashcardViewer.Next | src/components/FlashcardSection.tsx:49 | index moves to `min(n-1, i+1)`, front up, still in the deck |
| FlashcardSection.FlashcardViewer.Flip | src/components/FlashcardSection.tsx:34 | toggles the face and keeps the card |
| FlashcardSection.FlipTwiceRestores | src/components/FlashcardSection.tsx:34-37 | two flips show the same face of the same card again |
| PdfUtils.AllPagesSnoc | src/services/pdfUtils.ts:12-15 | appending a page appends its contribution |
| PdfUtils.ExtractText | src/services/pdfUtils.ts:8-18 | the loop's result is `AllPages`: the in-order concatenation of every page's items joined by spaces, each followed by a newline |
| PdfUtils.AllPagesEnds | src/services/pdfUtils.ts:11-17 | no pages gives the empty text and only then; otherwise the text ends with a newline |
| PdfUtils.PageLines | src/services/pdfUtils.ts:15 | one line per page |
| PdfUtils.AllPagesAsLines | src/services/pdfUtils.ts:12-17 | the text is the page lines joined by newlines, plus a final newline |
| PdfUtils.SplitRecoversPages | src/services/pdfUtils.ts:12-17 | when no item holds a newline, splitting the text on newlines recovers each page's line in page order, then an empty piece |
| HistorySidebar.ExtensionIsLastDot | src/components/HistorySidebar.tsx:17 | only the last `.` can start a final extension, and no `/` follows it |
| HistorySidebar.StripExtension | src/components/HistorySidebar.tsx:17 | the name is unchanged exactly when it has no final extension; otherwise the result is the prefix before that extension |
| HistorySidebar.Collapse | src/components/HistorySidebar.tsx:17 | no `_` or `-` survives, and the result is no longer than the input |
| HistorySidebar.CollapseIdentity | src/components/HistorySidebar.tsx:17 | text without separators is unchanged |
| HistorySidebar.CollapseRun | src/components/HistorySidebar.tsx:17 | a whole run of separators becomes one space |
| HistorySidebar.CollapseConcat | src/components/HistorySidebar.tsx:17 | collapsing distributes over a join that does not glue two separators together |
| HistorySidebar.CollapseRunToSpace | src/components/HistorySidebar.tsx:17 | each maximal separator run becomes exactly one space between the collapsed text around it |
| HistorySidebar.CapWord | src/components/HistorySidebar.tsx:20 | same length; the first character upper-cased and the rest unchanged |
| HistorySidebar.MapCap | src/components/HistorySidebar.tsx:20 | each word capitalised, in order |
| HistorySidebar.CapPiecesRef | src/components/HistorySidebar.tsx:18-21 | split-capitalise-join equals the character-by-character reference |
| HistorySidebar.CapitalizeWordsSpec | src/components/HistorySidebar.tsx:18-21 | `CapitalizeWords` (split, capitalise, join) keeps the length and upper-cases exactly the characters that start the text or follow a space |
| HistorySidebar.SummarizeFileName | src/components/HistorySidebar.tsx:15-22 | "File" for a missing or empty name |
| HistorySidebar.SummaryShape | src/pages/Features.tsx:47-55 | a title has no separators and is no longer than its name |
| HistorySidebar.Insert | src/components/HistorySidebar.tsx:29-33 | one record longer, and every element is the new record or an old one |
| HistorySidebar.InsertPermutes | src/components/HistorySidebar.tsx:29 | insertion adds exactly the new record |
| HistorySidebar.InsertSorted | src/components/HistorySidebar.tsx:29-33 | insertion keeps a newest-first list newest first |
| HistorySidebar.SortByNewestSpec | src/components/HistorySidebar.tsx:29-33 | `SortByNewest`, the sorted copy, is a permutation of the history, newest first, of the same length (empty for an empty history) |
| HistorySidebar.InsertStable | src/components/HistorySidebar.tsx:29-33 | insertion places the new record ahead of older records with the same time |
| HistorySidebar.SortByNewestStable | src/components/HistorySidebar.tsx:29-33 | records with equal creation times keep their history order |
| Features.FileNameForHeading | src/pages/Features.tsx:312 | empty with no opened analysis; otherwise the opened analysis's file name |
| Features.FileSummary | src/pages/Features.tsx:313 | "File" while no named analysis is open |
| Features.SelectAudio | src/pages/Features.tsx:112-120 | no file changes nothing; a file replaces the PDF, sets the audio type and clears transcription and note, keeping quiz, flashcards and everything else |
| Features.SelectPdf | src/pages/Features.tsx:122-130 | the mirror image for a PDF |
| Features.LastSelectionWins | src/pages/Features.tsx:112-130 | the last file chosen wins, and choosing one enables Analyze unless an analysis is running |
| Features.Picked | src/pages/Features.tsx:184-194 | the audio source exactly when the type is audio and an audio file is set, and likewise for a PDF |
| Features.Artifacts | src/pages/Features.tsx:207-211 | the joined generators succeed exactly when all three calls succeed, and the triple is then their three results |
| Features.AnalyzeFrame | src/pages/Features.tsx:171-177 | `Analyze` (the whole handler, with `Generate` for the part after the text is known): without a user nothing changes; otherwise the run ends idle and leaves recorder, inputs and library alone |
| Features.AnalyzeAllOrNothing | src/pages/Features.tsx:196-231 | note, quiz and flashcards are all present or all absent; present exactly when text was obtained, the first save succeeded and all three calls succeeded; each artifact is then the value its call returned |
| Features.AnalyzeWithoutTextWritesNothing | src/pages/Features.tsx:184-196 | with no source, a failed source or empty text, nothing is sent to the store and no artifact is produced |
| Features.AnalyzeSavesBeforeUpdate | src/pages/Features.tsx:196-222 | the initial record (owner, name, kind, text) is sent first; the artifact update follows it, under the store's id, exactly when artifacts were produced |
| Features.AnalyzeTranscription | src/pages/Features.tsx:174-189 | the transcription shows the transcribed text for an audio source and stays empty otherwise |
| Features.ResetMatchesNewChat | src/pages/Features.tsx:237-268 | `Reset` and `NewChat` clear the same fields back to the mounted state and differ only in stopping a running recorder; history, saved flag and store requests survive |
| Features.HistoryLoaded | src/pages/Features.tsx:144-153 | a successful read for a signed-in user replaces the history and changes nothing else; otherwise nothing changes |
| Features.AnalysisOpened | src/pages/Features.tsx:155-169 | a found record becomes the opened analysis and fills transcription, note, quiz, flashcards and input type, and every other field is kept; otherwise nothing changes |
| Features.SaveData | src/pages/Features.tsx:274-282 | the saved record defaults the type to pdf and quiz and flashcards to empty lists, and carries the heading's file name, transcription and note |
| Features.SaveSendsRecord | src/pages/Features.tsx:271-291 | a first `Save` sends exactly that record; the workspace is marked saved, with the store's id, exactly when the store accepts it, and Save is hidden afterwards |
| Features.DeleteClosesOnlyDeleted | src/pages/Features.tsx:300-309 | `Delete`: an unconfirmed delete does nothing; a confirmed one sends the delete and closes the opened analysis exactly when it is the deleted one |
| Features.StepKeepsSaved | src/pages/Features.tsx:237-309 | no handler (`Step`) clears the saved flag |
| Features.SaveIsPermanentlyDisabled | src/pages/Features.tsx:272 | once saved, any sequence of handlers (`Run`) keeps the workspace saved and Save does nothing |
| Features.Workspace.constructor | src/pages/Features.tsx:61-77 | the workspace mounts in the initial state |
| Features.Workspace.HandleAudioFileUpload | src/pages/Features.tsx:112-120 | the new state is `SelectAudio` of the old one |
| Features.Workspace.HandlePdfFileUpload | src/pages/Features.tsx:122-130 | the new state is `SelectPdf` of the old one |
| Features.Workspace.LoadHistory | src/pages/Features.tsx:144-153 | the new state is `HistoryLoaded` of the old one |
| Features.Workspace.LoadAnalysis | src/pages/Features.tsx:155-169 | the new state is `AnalysisOpened` of the old one |
| Features.Workspace.SaveAndGenerate | src/pages/Features.tsx:196-222 | the new state is `Generate` of the old one |
| Features.Workspace.HandleAnalyze | src/pages/Features.tsx:171-235 | the new state is `Analyze` of the old one |
| Features.Workspace.HandleReset | src/pages/Features.tsx:237-253 | the new state is `Reset` of the old one |
| Features.Workspace.HandleNewChat | src/pages/Features.tsx:256-268 | the new state is `NewChat` of the old one |
| Features.Workspace.HandleSave | src/pages/Features.tsx:271-291 | the new state is `Save` of the old one |
| Features.Workspace.HandleDelete | src/pages/Features.tsx:300-309 | the new state is `Delete` of the old one |
| OfflineFeatures.Stopped | src/.Featuress.tsx:55-60 | without a recorder nothing changes; with one, recording ends and one stop is issued; inputs, outputs and chunks are kept |
| OfflineFeatures.SelectAudio | src/.Featuress.tsx:63-71 | no file changes nothing; a file replaces the PDF, sets the audio type and clears transcription and note |
| OfflineFeatures.SelectPdf | src/.Featuress.tsx:73-81 | the mirror image for a PDF |
| OfflineFeatures.NoteAttempt | src/.Featuress.tsx:96-101 | a note exists exactly when the analysis call succeeds, and it records the analysed text as its original text |
| OfflineFeatures.QuizAttempt | src/.Featuress.tsx:115-121 | a quiz exists exactly when its own call succeeds, and it is the quiz that call returned |
| OfflineFeatures.CardsAttempt | src/.Featuress.tsx:122-128 | a deck exists exactly when its own call succeeds, and it is the deck that call returned |
| OfflineFeatures.AnalyzeFrame | src/.Featuress.tsx:133-135 | `Analyze` always ends idle and keeps recorder and inputs |
| OfflineFeatures.ArtifactsFailIndependently | src/.Featuress.tsx:96-128 | with non-empty text, each of note, quiz and flashcards is present exactly when its own call succeeds and is then that call's result; the note holds the source text |
| OfflineFeatures.NoteFailureDoesNotBlockOthers | src/.Featuress.tsx:96-128 | the quiz and flashcards do not depend on the note's reply |
| OfflineFeatures.SourceFailureReported | src/.Featuress.tsx:130-132 | a failed upload, transcription or extraction shows the fixed error message and produces no artifact |
| OfflineFeatures.BlankTextGeneratesNothing | src/.Featuress.tsx:114 | with no source or empty text, no artifact is produced |
| OfflineFeatures.ResetRestoresInitial | src/.Featuress.tsx:138-152 | `Reset` returns every input and result to the mounted state and keeps only the recorder it may hold |
| OfflineFeatures.AnalyzerPage.constructor | src/.Featuress.tsx:13-28 | the page mounts in the initial state |
| OfflineFeatures.AnalyzerPage.StopRecording | src/.Featuress.tsx:55-60 | the new state is `Stopped` of the old one |
| OfflineFeatures.AnalyzerPage.HandleAudioFileUpload | src/.Featuress.tsx:63-71 | the new state is `SelectAudio` of the old one |
| OfflineFeatures.AnalyzerPage.HandlePdfFileUpload | src/.Featuress.tsx:73-81 | the new state is `SelectPdf` of the old one |
| OfflineFeatures.AnalyzerPage.GenerateEach | src/.Featuress.tsx:96-128 | each artifact is set from its own attempt; quiz and flashcards are attempted only for non-empty text |
| OfflineFeatures.AnalyzerPage.HandleAnalyze | src/.Featuress.tsx:84-136 | the new state is `Analyze` of the old one |
| OfflineFeatures.AnalyzerPage.HandleReset | src/.Featuress.tsx:138-152 | the new state is `Reset` of the old one |

## Left out

- The speech-to-text client (`src/services/transcription.ts`: upload, job submission, polling with a one-second timer) is not part of this model; its outcome is the `source` parameter of an analysis.
- The store functions in `src/services/database.ts` are not part of this model. Reads are outcome parameters, and writes are recorded as `StoreWrite` requests. Server timestamps and the store's own ordering are out of scope.
- The HTTP requests, the probing of the endpoint's response shape and `JSON.parse` become the `Response` input and the decoder parameters.
- The PDF library's parsing (`getDocument`, `getPage`, `getTextContent`) is foreign code. The document is given as its pages' text items, and a malformed file is the `source` failure.
- Microphone capture is left out: `startRecording` and the recorder's stop callback on both pages, and the record-backed workspace's `stopRecording`. The microphone and the `MediaRecorder` object are foreign code. These handlers also change page state in ways the model does not capture:
  - `startRecording` empties the chunk list and sets the recording flag (src/pages/Features.tsx:84, 97).
  - The recorder's stop callback sets the audio file to `recording.wav` and the input type to audio (src/pages/Features.tsx:90-95, src/.Featuress.tsx:42-47). Unlike `SelectAudio`, it keeps the PDF, the transcription and the note, so a finished recording is a second way to choose the audio file.
  - The record-backed workspace's `stopRecording` clears the recording flag even when no recorder exists (src/pages/Features.tsx:104-109). The store-less page's version, `OfflineFeatures.Stopped`, clears it only when a recorder exists.
- `alert`, `confirm` and console logging are left out; `confirm`'s answer is the `confirmed` parameter of a delete.
- Navigation after an analysis or a save changes the route id, whose effect then loads that analysis; the delayed history refresh after an analysis reloads the history. These follow-ups are the separate `Workspace.LoadAnalysis` and `Workspace.LoadHistory` steps, which a caller sequences after the handler; `HandleAnalyze` itself does not perform them.
- A flashcard viewer given a different deck after mounting is left out. React keeps the old index, which for a shorter deck points past its end; the model fixes the deck when the viewer is constructed.
- `Text.IsWhitespace`: only ASCII whitespace is stripped by `Trim`. JavaScript's `trim` also strips non-breaking spaces, U+FEFF and the Unicode line and paragraph separators, so text made only of those is blank to the page but not to the model.
- Locale date display and `Timestamp` conversion are left out. Creation times are integers (milliseconds since the epoch).
- Authentication is left out. The signed-in user is a constructor parameter.
- Presentation, routing, tab selection and the sidebar's open flag are left out.
- Interleaving of overlapping asynchronous handlers is left out. Each handler runs to completion on the state it started from.
- A quiz panel given a different quiz after mounting is left out. React keeps the old answer slots in that case, and the model fixes the quiz when the panel is constructed.
- `Text.ToUpper`: covers ASCII letters only, not full Unicode upper-casing.
- `Features.FileNameForHeading`: the fallback to the note's `originalText.fileName` is not modelled. Notes produced by this workspace never carry that field.
- `HistorySidebar.SummarizeFileName`: states only the "File" case. The rest of the title is characterised by `StripExtension`, `Collapse`, `CapitalizeWordsSpec` and `SummaryShape`.
- `OfflineFeatures.AnalyzerPage.GenerateEach`: requires the note, quiz and flashcards to be cleared, as the analysis has just done before calling it.
