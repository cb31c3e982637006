/**
  The AI text-analysis client: the checks every call makes before contacting
  the generative-language endpoint, and the decoders that turn its free-text
  reply into a note (summary, key points, simplified text), a quiz or a set
  of flashcards. The HTTP exchange is an input (`Response`) and JSON decoding
  is a decoder function passed in by the caller.
*/
module AiAnalysis {
  import opened Wrappers
  import opened Text
  import QuizSection
  import FlashcardSection

  /** The structured note decoded from an analysis reply. */
  datatype NoteAnalysis = NoteAnalysis(summary: string, keyPoints: seq<string>, simplifiedText: string)

  /** The ways a call of this client fails. */
  datatype AiError =
    | MissingApiKey          // no credential configured
    | EmptyText              // the text to analyse is blank
    | RequestFailed          // the endpoint answered with a non-2xx status
    | InvalidResponse        // the analysis reply carries no candidate text
    | NoteParseFailed        // the analysis reply lacks a summary, key points or simplified text
    | QuizNotFound           // no bracketed span in the quiz reply
    | QuizParseFailed        // the quiz span did not decode
    | FlashcardsNotFound     // no bracketed span in the flashcard reply
    | FlashcardsParseFailed  // the flashcard span did not decode

  /**
    What the endpoint returned: a failed request, or a delivered body whose
    first candidate's text may be missing.
  */
  datatype Response = Failed | Delivered(candidateText: Option<string>)

  /** The credential counts as present only when it is defined and not empty. */
  predicate IsConfigured(apiKey: Option<string>) {
    apiKey.Some? && apiKey.value != ""
  }

  /** The checks shared by the three calls, made before any request is sent. */
  function InputError(apiKey: Option<string>, text: string): Option<AiError> {
    if !IsConfigured(apiKey) then Some(MissingApiKey)
    else if Trim(text) == "" then Some(EmptyText)
    else None
  }

  const SummaryMarker: string := "Summary:"
  const KeyPointsMarker: string := "Key Points:"
  const SimplifiedMarker: string := "Simplified Text:"

  /** What follows the first occurrence of `marker`; None when the marker does not occur. */
  function After(s: string, marker: string): (r: Option<string>)
    ensures r.None? <==> Find(s, marker) < 0
    ensures r.Some? ==> |marker| + |r.value| <= |s|
  {
    var k := Find(s, marker);
    if k < 0 then None else Some(s[k + |marker|..])
  }

  /** `After` yields the suffix that follows the leftmost occurrence of the marker. */
  lemma AfterSpec(s: string, marker: string)
    requires After(s, marker).Some?
    ensures var r := After(s, marker).value; var k := |s| - |r| - |marker|;
      r == s[|s| - |r|..] && OccursAt(s, marker, k) && forall i: nat :: i < k ==> !OccursAt(s, marker, i)
  {
  }

  /**
    The shortest prefix of `s` that is followed by `stop` or by the end of `s`
    (a lazy match up to a lookahead for `stop` or the end of input).
  */
  function UpTo(s: string, stop: string): (r: string)
    ensures |r| <= |s|
  {
    var k := Find(s, stop);
    if k < 0 then s else s[..k]
  }

  /** `UpTo` is a prefix that ends at the leftmost `stop` or at the end of input. */
  lemma UpToSpec(s: string, stop: string)
    ensures var r := UpTo(s, stop);
      r == s[..|r|] && (r == s || OccursAt(s, stop, |r|)) && forall i: nat :: i < |r| ==> !OccursAt(s, stop, i)
  {
  }

  /** The summary: the trimmed text between the first `Summary:` and the next `Key Points:`. */
  function Summary(reply: string): (r: string)
    ensures IsTrimmed(r)
    ensures Find(reply, SummaryMarker) < 0 ==> r == ""
  {
    match After(reply, SummaryMarker)
    case None => ""
    case Some(rest) => TrimIsTrimmed(UpTo(rest, KeyPointsMarker)); Trim(UpTo(rest, KeyPointsMarker))
  }

  /** One line of the key-points section: kept when its trimmed form starts with `-`, which is then dropped. */
  function KeyPointLine(line: string): (r: Option<string>)
    ensures r.Some? ==> IsTrimmed(r.value)
    ensures r.Some? <==> StartsWith(Trim(line), '-')
  {
    var t := Trim(line);
    if StartsWith(t, '-') then TrimIsTrimmed(t[1..]); Some(Trim(t[1..])) else None
  }

  /** The key points of a list of lines, in line order. */
  function KeyPointsFromLines(lines: seq<string>): (points: seq<string>)
    ensures |points| <= |lines|
    ensures forall i :: 0 <= i < |points| ==> IsTrimmed(points[i])
  {
    if |lines| == 0 then []
    else
      var rest := KeyPointsFromLines(lines[1..]);
      var point := KeyPointLine(lines[0]);
      if point.None? then rest
      else
        var points := [point.value] + rest;
        assert forall i :: 0 < i < |points| ==> points[i] == rest[i - 1];
        points
  }

  /** Key points keep the order of their lines: decoding distributes over concatenation. */
  lemma {:induction false} KeyPointsFromLinesAppend(a: seq<string>, b: seq<string>)
    ensures KeyPointsFromLines(a + b) == KeyPointsFromLines(a) + KeyPointsFromLines(b)
    decreases |a|
  {
    if a != [] {
      assert (a + b)[0] == a[0];
      assert (a + b)[1..] == a[1..] + b;
      KeyPointsFromLinesAppend(a[1..], b);
    } else {
      assert a + b == b;
    }
  }

  /** The key points: the bullet lines between the first `Key Points:` and the next `Simplified Text:`. */
  function KeyPoints(reply: string): (r: seq<string>)
    ensures forall i :: 0 <= i < |r| ==> IsTrimmed(r[i])
    ensures Find(reply, KeyPointsMarker) < 0 ==> r == []
  {
    match After(reply, KeyPointsMarker)
    case None => []
    case Some(rest) => KeyPointsFromLines(Split(Trim(UpTo(rest, SimplifiedMarker)), '\n'))
  }

  /** The simplified text: everything after the first `Simplified Text:`, trimmed. */
  function SimplifiedText(reply: string): (r: string)
    ensures IsTrimmed(r)
    ensures Find(reply, SimplifiedMarker) < 0 ==> r == ""
  {
    match After(reply, SimplifiedMarker)
    case None => ""
    case Some(rest) => TrimIsTrimmed(rest); Trim(rest)
  }

  /** Decodes an analysis reply; fails unless summary, simplified text and at least one key point are found. */
  function ParseNote(reply: string): (r: Result<NoteAnalysis, AiError>)
    ensures r.Ok? <==> Summary(reply) != "" && SimplifiedText(reply) != "" && |KeyPoints(reply)| > 0
    ensures r.Ok? ==> r.value == NoteAnalysis(Summary(reply), KeyPoints(reply), SimplifiedText(reply))
    ensures r.Err? ==> r.error == NoteParseFailed
  {
    var summary := Summary(reply);
    var keyPoints := KeyPoints(reply);
    var simplified := SimplifiedText(reply);
    if summary == "" || simplified == "" || |keyPoints| == 0 then Err(NoteParseFailed)
    else Ok(NoteAnalysis(summary, keyPoints, simplified))
  }

  /** Every field of a decoded note is trimmed and non-empty, and a reply missing a marker never decodes. */
  lemma ParsedNoteWellFormed(reply: string)
    ensures ParseNote(reply).Ok? ==>
      var n := ParseNote(reply).value;
      n.summary != "" && IsTrimmed(n.summary) && n.simplifiedText != "" && IsTrimmed(n.simplifiedText) &&
      |n.keyPoints| > 0 && forall i :: 0 <= i < |n.keyPoints| ==> IsTrimmed(n.keyPoints[i])
    ensures Find(reply, SummaryMarker) < 0 || Find(reply, KeyPointsMarker) < 0 || Find(reply, SimplifiedMarker) < 0
      ==> ParseNote(reply) == Err(NoteParseFailed)
  {
  }

  /** `analyzeText`: credential and input checks, then the request, then decoding. */
  function AnalyzeText(apiKey: Option<string>, text: string, response: Response): (r: Result<NoteAnalysis, AiError>)
    ensures !IsConfigured(apiKey) ==> r == Err(MissingApiKey)
    ensures IsConfigured(apiKey) && Trim(text) == "" ==> r == Err(EmptyText)
    ensures r.Ok? <==>
      IsConfigured(apiKey) && Trim(text) != "" && response.Delivered? &&
      response.candidateText.Some? && ParseNote(response.candidateText.value).Ok?
    ensures r.Ok? ==> r == ParseNote(response.candidateText.value)
  {
    match InputError(apiKey, text)
    case Some(e) => Err(e)
    case None =>
      match response
      case Failed => Err(RequestFailed)
      case Delivered(candidate) =>
        if candidate.None? || candidate.value == "" then Err(InvalidResponse)
        else ParseNote(candidate.value)
  }

  /**
    The span the pattern `\[[\s\S]*\]` matches: from the first `[` to the last
    `]` (greedy, so not necessarily a balanced pair); None when no `]` follows
    a `[`.
  */
  function ExtractArray(s: string): (r: Option<string>)
    ensures r.None? <==> forall i, j :: 0 <= i < j < |s| && s[i] == '[' ==> s[j] != ']'
    ensures r.Some? ==> |r.value| >= 2 && r.value[0] == '[' && r.value[|r.value| - 1] == ']'
  {
    var i := FirstIndexOf(s, '[');
    var j := LastIndexOf(s, ']');
    if 0 <= i < j then Some(s[i..j + 1]) else None
  }

  /** The extracted span lies between a prefix with no `[` and a suffix with no `]`. */
  lemma ExtractArraySpan(s: string) returns (prefix: string, suffix: string)
    requires ExtractArray(s).Some?
    ensures s == prefix + ExtractArray(s).value + suffix
    ensures '[' !in prefix && ']' !in suffix
  {
    var i := FirstIndexOf(s, '[');
    var j := LastIndexOf(s, ']');
    prefix, suffix := s[..i], s[j + 1..];
    assert s == s[..i] + s[i..j + 1] + s[j + 1..];
    assert forall k :: 0 <= k < |prefix| ==> prefix[k] == s[k];
    assert forall k :: 0 <= k < |suffix| ==> suffix[k] == s[j + 1 + k];
  }

  /**
    The shared shape of `generateQuizFromText` and `generateFlashcardsFromText`:
    checks, request, bracketed-span extraction, then JSON decoding of the span.
  */
  function GenerateArray<T>(apiKey: Option<string>, text: string, response: Response,
                            decode: string -> Option<seq<T>>, notFound: AiError, malformed: AiError)
    : (r: Result<seq<T>, AiError>)
    ensures !IsConfigured(apiKey) ==> r == Err(MissingApiKey)
    ensures IsConfigured(apiKey) && Trim(text) == "" ==> r == Err(EmptyText)
    ensures IsConfigured(apiKey) && Trim(text) != "" && response.Failed? ==> r == Err(RequestFailed)
    ensures IsConfigured(apiKey) && Trim(text) != "" && response.Delivered? ==>
      var span := ExtractArray(response.candidateText.GetOr(""));
      (span.None? ==> r == Err(notFound)) &&
      (span.Some? && decode(span.value).None? ==> r == Err(malformed))
    ensures r.Ok? <==>
      IsConfigured(apiKey) && Trim(text) != "" && response.Delivered? &&
      var span := ExtractArray(response.candidateText.GetOr(""));
      span.Some? && decode(span.value).Some?
    ensures r.Ok? ==>
      var span := ExtractArray(response.candidateText.GetOr(""));
      span.Some? && decode(span.value) == Some(r.value)
  {
    match InputError(apiKey, text)
    case Some(e) => Err(e)
    case None =>
      match response
      case Failed => Err(RequestFailed)
      case Delivered(candidate) =>
        match ExtractArray(candidate.GetOr(""))
        case None => Err(notFound)
        case Some(span) =>
          match decode(span)
          case None => Err(malformed)
          case Some(items) => Ok(items)
  }

  /** `generateQuizFromText`. */
  function GenerateQuiz(apiKey: Option<string>, text: string, response: Response,
                        decode: string -> Option<seq<QuizSection.QuizQuestion>>)
    : Result<seq<QuizSection.QuizQuestion>, AiError>
  {
    GenerateArray(apiKey, text, response, decode, QuizNotFound, QuizParseFailed)
  }

  /** `generateFlashcardsFromText`. */
  function GenerateFlashcards(apiKey: Option<string>, text: string, response: Response,
                              decode: string -> Option<seq<FlashcardSection.Flashcard>>)
    : Result<seq<FlashcardSection.Flashcard>, AiError>
  {
    GenerateArray(apiKey, text, response, decode, FlashcardsNotFound, FlashcardsParseFailed)
  }

  /**
    A quiz or flashcard reply with no `[` ... `]` pair is reported as "not
    found", whatever the decoder; a span the decoder rejects is reported as
    unparseable.
  */
  lemma ReplyWithoutArrayNotFound(apiKey: Option<string>, text: string, reply: string,
                                  decodeQuiz: string -> Option<seq<QuizSection.QuizQuestion>>,
                                  decodeCards: string -> Option<seq<FlashcardSection.Flashcard>>)
    requires IsConfigured(apiKey) && Trim(text) != ""
    requires forall i, j :: 0 <= i < j < |reply| && reply[i] == '[' ==> reply[j] != ']'
    ensures GenerateQuiz(apiKey, text, Delivered(Some(reply)), decodeQuiz) == Err(QuizNotFound)
    ensures GenerateFlashcards(apiKey, text, Delivered(Some(reply)), decodeCards) == Err(FlashcardsNotFound)
  {
  }

  /** A reply whose span the decoder rejects fails as unparseable, for quizzes and flashcards alike. */
  lemma RejectedSpanMalformed(apiKey: Option<string>, text: string, reply: string,
                              decodeQuiz: string -> Option<seq<QuizSection.QuizQuestion>>,
                              decodeCards: string -> Option<seq<FlashcardSection.Flashcard>>)
    requires IsConfigured(apiKey) && Trim(text) != "" && ExtractArray(reply).Some?
    ensures decodeQuiz(ExtractArray(reply).value).None? ==>
      GenerateQuiz(apiKey, text, Delivered(Some(reply)), decodeQuiz) == Err(QuizParseFailed)
    ensures decodeCards(ExtractArray(reply).value).None? ==>
      GenerateFlashcards(apiKey, text, Delivered(Some(reply)), decodeCards) == Err(FlashcardsParseFailed)
    ensures decodeQuiz(ExtractArray(reply).value).Some? ==>
      GenerateQuiz(apiKey, text, Delivered(Some(reply)), decodeQuiz) == Ok(decodeQuiz(ExtractArray(reply).value).value)
  {
  }

  /** The lines `- p` of a key-point list as the prompt asks for them. */
  function BulletLines(points: seq<string>): (lines: seq<string>)
    ensures |lines| == |points|
  {
    seq(|points|, i requires 0 <= i < |points| => "- " + points[i])
  }

  /** The three-section layout `M1 S` / `M2` / block / `M3 T`, for any three markers. */
  function Layout(m1: string, s: string, m2: string, block: string, m3: string, t: string): string {
    m1 + [' '] + s + ['\n'] + m2 + ['\n'] + block + ['\n'] + m3 + [' '] + t
  }

  /**
    A reply in exactly the format the analysis prompt requests:
    `Summary: S`, `Key Points:`, one `- P` line per point, `Simplified Text: T`.
  */
  function PromptedReply(summary: string, points: seq<string>, simplified: string): string {
    Layout(SummaryMarker, summary, KeyPointsMarker, Join(BulletLines(points), ['\n']), SimplifiedMarker, simplified)
  }

  /** Text that is usable as a key point in a prompted reply. */
  predicate IsPlainPoint(p: string) {
    p != "" && IsTrimmed(p) && '\n' !in p && Find(p, SimplifiedMarker) < 0
  }

  /**
    A reply in the prompted format decodes to exactly the note it was written
    from, provided its parts are trimmed, non-empty and do not contain the
    markers that end them.
  */
  lemma {:induction false} PromptedReplyDecodes(summary: string, points: seq<string>, simplified: string)
    requires summary != "" && IsTrimmed(summary)
    requires Find(summary, KeyPointsMarker) < 0 && Find(summary, SimplifiedMarker) < 0
    requires |points| > 0 && forall i :: 0 <= i < |points| ==> IsPlainPoint(points[i])
    requires simplified != "" && IsTrimmed(simplified)
    ensures ParseNote(PromptedReply(summary, points, simplified)) == Ok(NoteAnalysis(summary, points, simplified))
  {
    PromptedSummary(summary, points, simplified);
    PromptedKeyPoints(summary, points, simplified);
    PromptedSimplified(summary, points, simplified);
  }

  /** A marker at the very start is found there. */
  lemma AfterLeading(marker: string, rest: string)
    requires marker != ""
    ensures After(marker + rest, marker) == Some(rest)
  {
    assert OccursAt(marker + rest, marker, 0);
  }

  /** A marker found only after a barrier character it does not contain. */
  lemma AfterBarrier(a: string, c: char, marker: string, b: string)
    requires Find(a, marker) < 0 && c !in marker && marker != ""
    ensures After(a + [c] + (marker + b), marker) == Some(b)
  {
    FindAcrossBarrier(a, c, marker + b, marker);
    assert OccursAt(marker + b, marker, 0);
    assert (a + [c] + (marker + b))[|a| + 1 + |marker|..] == b;
  }

  /** Text up to a stop marker that first occurs right after a barrier character. */
  lemma UpToBarrier(a: string, c: char, stop: string, b: string)
    requires Find(a, stop) < 0 && c !in stop && stop != ""
    ensures Find(a + [c] + (stop + b), stop) == |a| + 1
    ensures UpTo(a + [c] + (stop + b), stop) == a + [c]
  {
    FindAcrossBarrier(a, c, stop + b, stop);
    assert OccursAt(stop + b, stop, 0);
    assert (a + [c] + (stop + b))[..|a| + 1] == a + [c];
  }

  /** What follows the second marker of the layout. */
  function SecondSection(block: string, m3: string, t: string): string {
    ['\n'] + (block + ['\n'] + (m3 + ([' '] + t)))
  }

  /** What follows the first marker of the layout. */
  function FirstSection(s: string, m2: string, block: string, m3: string, t: string): string {
    [' '] + s + ['\n'] + (m2 + SecondSection(block, m3, t))
  }

  /** The groupings of the layout the section lemmas rely on. */
  lemma LayoutGrouping(m1: string, s: string, m2: string, block: string, m3: string, t: string)
    ensures Layout(m1, s, m2, block, m3, t) == m1 + FirstSection(s, m2, block, m3, t)
    ensures Layout(m1, s, m2, block, m3, t) == (m1 + [' '] + s) + ['\n'] + (m2 + SecondSection(block, m3, t))
    ensures Layout(m1, s, m2, block, m3, t) ==
      ((m1 + [' '] + s) + ['\n'] + (m2 + ['\n'] + block)) + ['\n'] + (m3 + ([' '] + t))
  {
  }

  /** The first marker of the layout is found at its start. */
  lemma LayoutAfterFirst(m1: string, s: string, m2: string, block: string, m3: string, t: string)
    requires m1 != ""
    ensures After(Layout(m1, s, m2, block, m3, t), m1) == Some(FirstSection(s, m2, block, m3, t))
  {
    LayoutGrouping(m1, s, m2, block, m3, t);
    AfterLeading(m1, FirstSection(s, m2, block, m3, t));
  }

  /** The first section stops at the newline before the second marker. */
  lemma FirstSectionEnd(s: string, m2: string, block: string, m3: string, t: string)
    requires m2 != "" && m2[0] != ' ' && '\n' !in m2 && Find(s, m2) < 0
    ensures UpTo(FirstSection(s, m2, block, m3, t), m2) == [' '] + s + ['\n']
  {
    FindAfterPrefix([' '], s, m2);
    UpToBarrier([' '] + s, '\n', m2, SecondSection(block, m3, t));
  }

  /** The second marker of the layout is first found after the first line. */
  lemma LayoutAfterSecond(m1: string, s: string, m2: string, block: string, m3: string, t: string)
    requires m2 != "" && '\n' !in m2 && Find(m1 + [' '] + s, m2) < 0
    ensures After(Layout(m1, s, m2, block, m3, t), m2) == Some(SecondSection(block, m3, t))
  {
    LayoutGrouping(m1, s, m2, block, m3, t);
    AfterBarrier(m1 + [' '] + s, '\n', m2, SecondSection(block, m3, t));
  }

  /** The second section stops at the newline before the third marker. */
  lemma SecondSectionEnd(block: string, m3: string, t: string)
    requires m3 != "" && '\n' !in m3 && Find(block, m3) < 0
    ensures UpTo(SecondSection(block, m3, t), m3) == ['\n'] + block + ['\n']
  {
    var x := block + ['\n'] + (m3 + ([' '] + t));
    UpToBarrier(block, '\n', m3, [' '] + t);
    FindAfterPrefix(['\n'], x, m3);
    assert (['\n'] + x)[..|block| + 2] == ['\n'] + block + ['\n'];
  }

  /** The third marker of the layout is first found on the last line. */
  lemma LayoutAfterThird(m1: string, s: string, m2: string, block: string, m3: string, t: string)
    requires m3 != "" && '\n' !in m3
    requires Find(m1 + [' '] + s, m3) < 0 && Find(m2, m3) < 0 && Find(block, m3) < 0
    ensures After(Layout(m1, s, m2, block, m3, t), m3) == Some([' '] + t)
  {
    LayoutGrouping(m1, s, m2, block, m3, t);
    FindAcrossBarrier(m2, '\n', block, m3);
    FindAcrossBarrier(m1 + [' '] + s, '\n', m2 + ['\n'] + block, m3);
    AfterBarrier((m1 + [' '] + s) + ['\n'] + (m2 + ['\n'] + block), '\n', m3, [' '] + t);
  }

  /** The key-point block of a prompted reply holds no `Simplified Text:`. */
  lemma BulletBlockPlain(points: seq<string>)
    requires forall i :: 0 <= i < |points| ==> IsPlainPoint(points[i])
    ensures Find(Join(BulletLines(points), ['\n']), SimplifiedMarker) < 0
  {
    var lines := BulletLines(points);
    forall i | 0 <= i < |lines| ensures Find(lines[i], SimplifiedMarker) < 0 {
      FindAfterPrefix("- ", points[i], SimplifiedMarker);
    }
    assert Find([], SimplifiedMarker) < 0;
    FindInJoin(lines, '\n', SimplifiedMarker);
  }

  lemma PromptedSummary(summary: string, points: seq<string>, simplified: string)
    requires IsTrimmed(summary) && Find(summary, KeyPointsMarker) < 0
    ensures Summary(PromptedReply(summary, points, simplified)) == summary
  {
    var block := Join(BulletLines(points), ['\n']);
    MarkerShapes();
    LayoutAfterFirst(SummaryMarker, summary, KeyPointsMarker, block, SimplifiedMarker, simplified);
    FirstSectionEnd(summary, KeyPointsMarker, block, SimplifiedMarker, simplified);
    TrimPadded([' '], summary, ['\n']);
  }

  /** Every bullet line `- p` decodes back to `p`. */
  lemma {:induction false} BulletLinesDecode(points: seq<string>)
    requires forall i :: 0 <= i < |points| ==> IsPlainPoint(points[i])
    ensures KeyPointsFromLines(BulletLines(points)) == points
    decreases |points|
  {
    if points != [] {
      var p := points[0];
      var line := "- " + p;
      assert BulletLines(points) == [line] + BulletLines(points[1..]);
      assert IsTrimmed(line);
      TrimOfTrimmed(line);
      assert line[1..] == [' '] + p;
      TrimPadded([' '], p, "");
      assert [' '] + p + "" == [' '] + p;
      assert KeyPointLine(line) == Some(p);
      BulletLinesDecode(points[1..]);
      assert [p] + points[1..] == points;
    }
  }

  /** The bullet block is trimmed: it starts with `-` and ends with the last point's last character. */
  lemma BulletBlockTrimmed(points: seq<string>)
    requires |points| > 0 && forall i :: 0 <= i < |points| ==> IsPlainPoint(points[i])
    ensures IsTrimmed(Join(BulletLines(points), ['\n']))
  {
    var lines := BulletLines(points);
    var last := points[|points| - 1];
    assert lines[|lines| - 1] == "- " + last;
    JoinEnds(lines, ['\n']);
  }

  /** The bullet block between its two newlines decodes back to the points. */
  lemma BulletBlockDecodes(points: seq<string>, t: string)
    requires |points| > 0 && forall i :: 0 <= i < |points| ==> IsPlainPoint(points[i])
    ensures var block := Join(BulletLines(points), ['\n']);
      KeyPointsFromLines(Split(Trim(UpTo(SecondSection(block, SimplifiedMarker, t), SimplifiedMarker)), '\n')) == points
  {
    var lines := BulletLines(points);
    var block := Join(lines, ['\n']);
    BulletBlockPlain(points);
    SecondSectionEnd(block, SimplifiedMarker, t);
    BulletBlockTrimmed(points);
    TrimPadded(['\n'], block, ['\n']);
    SplitJoin(lines, '\n');
    BulletLinesDecode(points);
  }

  /** The summary line holds no `Key Points:` unless the summary does. */
  lemma SummaryLineLacksKeyPoints(summary: string)
    requires Find(summary, KeyPointsMarker) < 0
    ensures Find(SummaryMarker + [' '] + summary, KeyPointsMarker) < 0
  {
    FindAfterPrefix(SummaryMarker + [' '], summary, KeyPointsMarker);
  }

  lemma PromptedKeyPoints(summary: string, points: seq<string>, simplified: string)
    requires Find(summary, KeyPointsMarker) < 0
    requires |points| > 0 && forall i :: 0 <= i < |points| ==> IsPlainPoint(points[i])
    ensures KeyPoints(PromptedReply(summary, points, simplified)) == points
  {
    var block := Join(BulletLines(points), ['\n']);
    MarkerShapes();
    SummaryLineLacksKeyPoints(summary);
    LayoutAfterSecond(SummaryMarker, summary, KeyPointsMarker, block, SimplifiedMarker, simplified);
    BulletBlockDecodes(points, simplified);
  }

  /** The summary line holds no `Simplified Text:` unless the summary does. */
  lemma SummaryLinePlain(summary: string)
    requires Find(summary, SimplifiedMarker) < 0
    ensures Find(SummaryMarker + [' '] + summary, SimplifiedMarker) < 0
  {
    var head := SummaryMarker + [' '] + summary;
    assert head == "S" + ("ummary: " + summary);
    FindAfterPrefix("ummary: ", summary, SimplifiedMarker);
    assert |head| >= |SimplifiedMarker| ==> head[..|SimplifiedMarker|][1] != SimplifiedMarker[1];
    assert head[1..] == "ummary: " + summary;
  }

  /** The `Key Points:` heading holds no `Simplified Text:`. */
  lemma KeyPointsMarkerPlain()
    ensures Find(KeyPointsMarker, SimplifiedMarker) < 0
  {
    FindAfterPrefix(KeyPointsMarker, [], SimplifiedMarker);
    assert KeyPointsMarker + [] == KeyPointsMarker;
  }

  lemma PromptedSimplified(summary: string, points: seq<string>, simplified: string)
    requires Find(summary, SimplifiedMarker) < 0
    requires forall i :: 0 <= i < |points| ==> IsPlainPoint(points[i])
    requires IsTrimmed(simplified)
    ensures SimplifiedText(PromptedReply(summary, points, simplified)) == simplified
  {
    MarkerShapes();
    SummaryLinePlain(summary);
    KeyPointsMarkerPlain();
    BulletBlockPlain(points);
    LayoutAfterThird(SummaryMarker, summary, KeyPointsMarker, Join(BulletLines(points), ['\n']), SimplifiedMarker, simplified);
    TrimAfterSpace(simplified);
  }

  /** A single leading space is trimmed away. */
  lemma TrimAfterSpace(t: string)
    requires IsTrimmed(t)
    ensures Trim([' '] + t) == t
  {
    TrimPadded([' '], t, []);
    assert [' '] + t + [] == [' '] + t;
  }

  /** The markers are single-line and do not start with a space. */
  lemma MarkerShapes()
    ensures SummaryMarker != "" && KeyPointsMarker != "" && SimplifiedMarker != ""
    ensures '\n' !in KeyPointsMarker && '\n' !in SimplifiedMarker
    ensures KeyPointsMarker[0] != ' '
  {
  }
}
