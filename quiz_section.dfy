/**
  The quiz panel: one answer slot per question, filled by clicking an option,
  a results flag set by submitting, and a retry that clears everything.
  The pure functions below describe each handler on a `QuizState` snapshot;
  the `QuizSession` class holds the component's state and its handlers are
  proved against those functions.
*/
module QuizSection {
  import opened Wrappers

  /** One multiple-choice question as decoded from the quiz reply. */
  datatype QuizQuestion = QuizQuestion(question: string, options: seq<string>, correctIndex: int)

  /** The component state: the chosen option per question (None while unanswered) and the results flag. */
  datatype QuizState = QuizState(answers: seq<Option<nat>>, showResults: bool)

  /** `Array(n).fill(null)`. */
  function Unanswered(n: nat): (r: seq<Option<nat>>)
    ensures |r| == n && forall i :: 0 <= i < n ==> r[i].None?
  {
    seq(n, _ => None)
  }

  /** The state the component starts in; an absent quiz gets no answer slots. */
  function Initial(quiz: Option<seq<QuizQuestion>>): (st: QuizState)
    ensures !st.showResults
    ensures quiz.None? ==> st.answers == []
    ensures quiz.Some? ==> |st.answers| == |quiz.value| && forall i :: 0 <= i < |st.answers| ==> st.answers[i].None?
  {
    QuizState(if quiz.Some? then Unanswered(|quiz.value|) else [], false)
  }

  /** The answer slots match the questions one to one. */
  predicate Fits(st: QuizState, quiz: seq<QuizQuestion>) {
    |st.answers| == |quiz|
  }

  /** `handleSelect(q, o)`: ignored once results are shown, otherwise records `o` for question `q`. */
  function Select(st: QuizState, q: nat, o: nat): (r: QuizState)
    requires q < |st.answers|
    ensures r.showResults == st.showResults
    ensures |r.answers| == |st.answers|
    ensures st.showResults ==> r == st
    ensures !st.showResults ==> r.answers[q] == Some(o)
    ensures forall i :: 0 <= i < |st.answers| && i != q ==> r.answers[i] == st.answers[i]
  {
    if st.showResults then st else st.(answers := st.answers[q := Some(o)])
  }

  /** `handleSubmit`: shows the results and keeps the answers. */
  function Submit(st: QuizState): (r: QuizState)
    ensures r.showResults && r.answers == st.answers
  {
    st.(showResults := true)
  }

  /** `handleRetry`: every question unanswered again, results hidden. */
  function Retry(quiz: seq<QuizQuestion>): (r: QuizState)
    ensures r == Initial(Some(quiz))
  {
    QuizState(Unanswered(|quiz|), false)
  }

  /** The submit button is enabled when no answer is null. */
  predicate SubmitEnabled(st: QuizState) {
    forall i :: 0 <= i < |st.answers| ==> st.answers[i].Some?
  }

  /** The feedback under question `q` reads "Correct!" exactly when its answer is the correct index. */
  predicate IsCorrect(st: QuizState, quiz: seq<QuizQuestion>, q: nat)
    requires q < |st.answers| && q < |quiz|
  {
    st.answers[q].Some? && st.answers[q].value == quiz[q].correctIndex
  }

  /** Option `o` of question `q` is highlighted as the correct one once results are shown. */
  predicate OptionMarkedCorrect(st: QuizState, quiz: seq<QuizQuestion>, q: nat, o: nat)
    requires q < |quiz|
  {
    st.showResults && o == quiz[q].correctIndex
  }

  /** Option `o` of question `q` is highlighted as wrong: shown, selected and not the correct index. */
  predicate OptionMarkedWrong(st: QuizState, quiz: seq<QuizQuestion>, q: nat, o: nat)
    requires q < |st.answers| && q < |quiz|
  {
    st.showResults && st.answers[q] == Some(o) && o != quiz[q].correctIndex
  }

  /** A freshly started or retried quiz cannot be submitted unless it has no questions. */
  lemma InitialSubmitDisabled(quiz: seq<QuizQuestion>)
    ensures SubmitEnabled(Initial(Some(quiz))) <==> |quiz| == 0
  {
    if |quiz| > 0 {
      assert Initial(Some(quiz)).answers[0].None?;
    }
  }

  /** A selected option that is not correct is marked wrong, and the correct option never is. */
  lemma MarkedWrongIffIncorrectChoice(st: QuizState, quiz: seq<QuizQuestion>, q: nat, o: nat)
    requires q < |st.answers| && q < |quiz| && st.showResults && st.answers[q] == Some(o)
    ensures OptionMarkedWrong(st, quiz, q, o) <==> !IsCorrect(st, quiz, q)
    ensures OptionMarkedWrong(st, quiz, q, o) ==> !OptionMarkedCorrect(st, quiz, q, o)
  {
  }

  /** The clicks the panel accepts. */
  datatype Action = Choose(q: nat, o: nat) | SubmitClick | RetryClick

  /** The state after a sequence of clicks on a panel for `quiz`. */
  function Run(st: QuizState, quiz: seq<QuizQuestion>, actions: seq<Action>): (r: QuizState)
    requires Fits(st, quiz)
    requires forall k :: 0 <= k < |actions| && actions[k].Choose? ==> actions[k].q < |quiz|
    ensures Fits(r, quiz)
    decreases |actions|
  {
    if actions == [] then st
    else
      var next := match actions[0]
        case Choose(q, o) => Select(st, q, o)
        case SubmitClick => Submit(st)
        case RetryClick => Retry(quiz);
      Run(next, quiz, actions[1..])
  }

  /** Once results are shown, option clicks change nothing until a retry. */
  lemma {:induction false} ChoicesAfterSubmitIgnored(st: QuizState, quiz: seq<QuizQuestion>, actions: seq<Action>)
    requires Fits(st, quiz)
    requires forall k :: 0 <= k < |actions| ==> actions[k].Choose? && actions[k].q < |quiz|
    ensures Run(Submit(st), quiz, actions) == Submit(st)
    decreases |actions|
  {
    if actions != [] {
      ChoicesAfterSubmitIgnored(st, quiz, actions[1..]);
    }
  }

  /** The choices `picks[0]`, ..., `picks[n-1]` made for questions 0 to n-1, in that order. */
  function ChooseAll(picks: seq<nat>): (actions: seq<Action>)
    ensures |actions| == |picks|
    ensures forall k :: 0 <= k < |picks| ==> actions[k] == Choose(k, picks[k])
  {
    seq(|picks|, k requires 0 <= k < |picks| => Choose(k, picks[k]))
  }

  /** Choosing `picks` for questions `done`, `done + 1`, ... records exactly those picks and nothing else. */
  lemma {:induction false} ChooseFromRecords(st: QuizState, quiz: seq<QuizQuestion>, picks: seq<nat>, done: nat)
    requires Fits(st, quiz) && !st.showResults && done + |picks| == |quiz|
    ensures var actions := seq(|picks|, k requires 0 <= k < |picks| => Choose(done + k, picks[k]));
      var r := Run(st, quiz, actions);
      !r.showResults &&
      (forall i :: 0 <= i < done ==> r.answers[i] == st.answers[i]) &&
      (forall i :: done <= i < |quiz| ==> r.answers[i] == Some(picks[i - done]))
    decreases |picks|
  {
    var actions := seq(|picks|, k requires 0 <= k < |picks| => Choose(done + k, picks[k]));
    if picks != [] {
      var next := Select(st, done, picks[0]);
      var tail := seq(|picks| - 1, k requires 0 <= k < |picks| - 1 => Choose(done + 1 + k, picks[1..][k]));
      assert actions[1..] == tail;
      ChooseFromRecords(next, quiz, picks[1..], done + 1);
    } else {
      assert actions == [];
    }
  }

  /** Answering every question, in order, enables the submit button. */
  lemma AnsweringAllEnablesSubmit(quiz: seq<QuizQuestion>, picks: seq<nat>)
    requires |picks| == |quiz|
    ensures SubmitEnabled(Run(Initial(Some(quiz)), quiz, ChooseAll(picks)))
    ensures forall i :: 0 <= i < |quiz| ==> Run(Initial(Some(quiz)), quiz, ChooseAll(picks)).answers[i] == Some(picks[i])
  {
    var actions := seq(|picks|, k requires 0 <= k < |picks| => Choose(0 + k, picks[k]));
    assert actions == ChooseAll(picks);
    ChooseFromRecords(Initial(Some(quiz)), quiz, picks, 0);
  }

  /** The quiz panel's state, updated in place by its click handlers. */
  class QuizSession {
    const quiz: Option<seq<QuizQuestion>>
    var answers: seq<Option<nat>>
    var showResults: bool

    function State(): QuizState
      reads this
    {
      QuizState(answers, showResults)
    }

    /** The handlers are rendered only when a quiz is present, and then the slots match its questions. */
    ghost predicate Valid()
      reads this
    {
      quiz.Some? ==> Fits(State(), quiz.value)
    }

    constructor (quiz: Option<seq<QuizQuestion>>)
      ensures this.quiz == quiz && Valid() && State() == Initial(quiz)
    {
      this.quiz := quiz;
      answers := if quiz.Some? then Unanswered(|quiz.value|) else [];
      showResults := false;
    }

    method HandleSelect(q: nat, o: nat)
      requires Valid() && quiz.Some? && q < |quiz.value|
      modifies this
      ensures Valid() && State() == Select(old(State()), q, o)
    {
      if showResults {
        return;
      }
      answers := answers[q := Some(o)];
    }

    method HandleSubmit()
      requires Valid() && quiz.Some?
      modifies this
      ensures Valid() && State() == Submit(old(State()))
    {
      showResults := true;
    }

    method HandleRetry()
      requires Valid() && quiz.Some?
      modifies this
      ensures Valid() && State() == Retry(quiz.value)
    {
      answers := Unanswered(|quiz.value|);
      showResults := false;
    }
  }
}
