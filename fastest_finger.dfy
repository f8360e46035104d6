/** The timed quiz screen (FastestFingerQuizViewController.swift).

    The repeating 0.1-second countdown is left out except for its outcome: while `timerRunning`
    holds, the timer may expire (`TimeExpired`). The 0.5-second callback that moves on is
    `advancePending`, and running it is `Advance`. */
module FastestFinger {
  import opened Wrappers
  import opened Words
  import Seqs
  import Mastery
  import QuizOptions

  /** The quiz always asks this many questions, whatever the number of words it was given. */
  const TotalQuestions := 10

  /** `loadWords` asks `getRandomWords` for ten words but gets only as many as the corpus has:
      from a corpus of fewer than ten words the quiz has fewer words than questions. */
  lemma SmallCorpusGivesFewerWords(pool: seq<Word>, shuffled: seq<Word>)
    requires 0 < |pool| < TotalQuestions && multiset(shuffled) == multiset(pool)
    ensures GetRandomWords(Some(pool), TotalQuestions, shuffled).Some?
    ensures |GetRandomWords(Some(pool), TotalQuestions, shuffled).value| == |pool| < TotalQuestions
  {
  }

  class FastestFingerQuizViewController {
    var words: seq<Word>
    var allWords: seq<Word>
    var currentQuestionIndex: nat
    var score: nat
    var hasAnswered: bool
    var timerRunning: bool
    var advancePending: bool
    var finished: bool
    /** Loading succeeded and the first question may be shown. */
    var ready: bool
    /** An alert was shown and the screen dismissed: no question is ever asked. */
    var aborted: bool
    /** How many answers (taps and expiries) have been recorded so far. */
    ghost var recorded: nat
    const buttons: QuizOptions.OptionButtons
    const tracker: Mastery.PersonalizedQuizService

    /** At most one answer is recorded per question, and only answers score. */
    ghost predicate Valid()
      reads this, buttons, buttons.enabled
    {
      Inv() && (currentQuestionIndex == TotalQuestions ==> finished)
    }

    /** `Valid` except while `Advance` has moved past the last question but not yet shown the results. */
    ghost predicate Inv()
      reads this, buttons, buttons.enabled
    {
      buttons.Valid() &&
      currentQuestionIndex <= TotalQuestions &&
      (finished ==> currentQuestionIndex == TotalQuestions && !advancePending && !timerRunning &&
                    forall k :: 0 <= k < QuizOptions.OptionCount ==> !buttons.enabled[k]) &&
      recorded == currentQuestionIndex + (if advancePending then 1 else 0) &&
      score <= recorded &&
      (ready ==> words != [] && allWords != [] && !aborted) &&
      (timerRunning ==> !advancePending && currentQuestionIndex < TotalQuestions) &&
      (advancePending ==> !timerRunning && currentQuestionIndex < TotalQuestions &&
                          forall k :: 0 <= k < QuizOptions.OptionCount ==> !buttons.enabled[k])
    }

    /** `init()` followed by `viewDidLoad`'s button setup: no words and no corpus yet. */
    constructor (tracker: Mastery.PersonalizedQuizService)
      ensures Valid() && fresh(buttons) && fresh(buttons.titles) && fresh(buttons.correct) && fresh(buttons.enabled)
      ensures words == [] && allWords == [] && this.tracker == tracker
      ensures currentQuestionIndex == 0 && score == 0 && !hasAnswered && !timerRunning && !advancePending && !finished
      ensures !ready && !aborted
    {
      words := [];
      allWords := [];
      ready := false;
      aborted := false;
      this.tracker := tracker;
      currentQuestionIndex := 0;
      score := 0;
      hasAnswered := false;
      timerRunning := false;
      advancePending := false;
      finished := false;
      recorded := 0;
      buttons := new QuizOptions.OptionButtons();
    }

    /** `loadWords`: `corpus` is what `loadWords(style: .concise)` gives, and `getRandomWords` takes
        ten words of the same cached list, in the order `shuffled`. No corpus, or no random words,
        shows an alert and dismisses the screen; otherwise the first question is shown (`ready`). */
    method LoadWords(corpus: Option<seq<Word>>, shuffled: seq<Word>)
      requires Valid() && words == [] && allWords == [] && currentQuestionIndex == 0
      requires !advancePending && !finished && !timerRunning && !ready && !aborted
      requires corpus.Some? ==> multiset(shuffled) == multiset(corpus.value)
      modifies this
      ensures Valid() && currentQuestionIndex == 0 && score == old(score) && recorded == old(recorded)
      ensures !advancePending && !finished && !timerRunning && hasAnswered == old(hasAnswered)
      ensures allWords == if corpus.Some? then corpus.value else []
      ensures var picked := GetRandomWords(corpus, TotalQuestions, shuffled);
        words == if picked.Some? then picked.value else []
      ensures ready <==> corpus.Some? && corpus.value != []
      ensures ready ==> |words| == Seqs.Min(TotalQuestions, |allWords|)
      ensures aborted <==> !ready
    {
      if corpus.None? {
        aborted := true;
        return;
      }
      allWords := corpus.value;
      var randomWords := GetRandomWords(corpus, TotalQuestions, shuffled);
      if randomWords.None? || randomWords.value == [] {
        aborted := true;
        return;
      }
      words := randomWords.value;
      // the source's last alert needs an empty list here, which ten words of a non-empty corpus are not
      ready := true;
    }

    /** `showNextQuestion`: the results after ten questions, otherwise a fresh unanswered question
        with its options and a started timer. The current word is read with no bound check, so
        there must be a word for every question asked. */
    method ShowNextQuestion(shuffled: seq<Word>, arranged: seq<string>)
      requires Inv() && !advancePending && !timerRunning && ready
      requires currentQuestionIndex < TotalQuestions ==> currentQuestionIndex < |words|
      requires currentQuestionIndex < TotalQuestions ==>
        QuizOptions.FixedOptionsFor(allWords, words[currentQuestionIndex], shuffled, QuizOptions.FastestFingerPlaceholders, arranged)
      modifies this, buttons.titles, buttons.correct, buttons.enabled
      ensures Valid()
      ensures finished <==> currentQuestionIndex >= TotalQuestions
      ensures !finished ==> !hasAnswered && timerRunning
      ensures words == old(words) && allWords == old(allWords) && currentQuestionIndex == old(currentQuestionIndex)
      ensures score == old(score) && recorded == old(recorded) && !advancePending
      ensures ready && aborted == old(aborted)
      ensures currentQuestionIndex < TotalQuestions ==>
        (|arranged| == QuizOptions.OptionCount &&
         forall k :: 0 <= k < QuizOptions.OptionCount ==>
           buttons.titles[k] == QuizOptions.DisplayTitle(arranged[k]) && buttons.enabled[k] &&
           (buttons.correct[k] <==> arranged[k] == words[currentQuestionIndex].meaning))
    {
      if currentQuestionIndex >= TotalQuestions {
        ShowQuizResults();
        return;
      }
      PresentQuestion(shuffled, arranged);
    }

    /** `showQuizResults` hides the options, and hidden buttons receive no taps. */
    method ShowQuizResults()
      requires Inv() && !advancePending && !timerRunning && currentQuestionIndex >= TotalQuestions
      modifies this, buttons.enabled
      ensures Valid() && finished
      ensures words == old(words) && allWords == old(allWords) && currentQuestionIndex == old(currentQuestionIndex)
      ensures score == old(score) && recorded == old(recorded) && !advancePending && !timerRunning
      ensures ready == old(ready) && aborted == old(aborted)
    {
      buttons.DisableAll();
      finished := true;
    }

    method PresentQuestion(shuffled: seq<Word>, arranged: seq<string>)
      requires Inv() && !advancePending && !timerRunning
      requires currentQuestionIndex < TotalQuestions && currentQuestionIndex < |words|
      requires QuizOptions.FixedOptionsFor(allWords, words[currentQuestionIndex], shuffled, QuizOptions.FastestFingerPlaceholders, arranged)
      modifies this, buttons.titles, buttons.correct, buttons.enabled
      ensures Valid() && !finished && !hasAnswered && timerRunning
      ensures words == old(words) && allWords == old(allWords) && currentQuestionIndex == old(currentQuestionIndex)
      ensures score == old(score) && recorded == old(recorded) && !advancePending
      ensures ready == old(ready) && aborted == old(aborted)
      ensures |arranged| == QuizOptions.OptionCount
      ensures forall k :: 0 <= k < QuizOptions.OptionCount ==>
        buttons.titles[k] == QuizOptions.DisplayTitle(arranged[k]) && buttons.enabled[k] &&
        (buttons.correct[k] <==> arranged[k] == words[currentQuestionIndex].meaning)
    {
      var currentWord := words[currentQuestionIndex];
      buttons.ShowFixedOptions(allWords, currentWord, shuffled, QuizOptions.FastestFingerPlaceholders, arranged);
      finished := false;
      hasAnswered := false;
      timerRunning := true;
    }

    /** `timeExpired`: stops the timer; an unanswered question is marked wrong without a point, the
        buttons are disabled and the move on is scheduled. An answered question changes nothing. */
    method TimeExpired()
      requires Valid() && timerRunning
      requires !hasAnswered ==> currentQuestionIndex < |words|
      modifies this, buttons.enabled, tracker
      ensures Valid() && !timerRunning
      ensures score == old(score) && hasAnswered == old(hasAnswered)
      ensures !old(hasAnswered) ==>
        advancePending && recorded == old(recorded) + 1 &&
        tracker.State() == Mastery.MarkWrong(old(tracker.State()), old(words[currentQuestionIndex].word))
      ensures old(hasAnswered) ==>
        advancePending == old(advancePending) && recorded == old(recorded) && tracker.State() == old(tracker.State())
      ensures words == old(words) && currentQuestionIndex == old(currentQuestionIndex) && finished == old(finished)
      ensures allWords == old(allWords) && ready == old(ready) && aborted == old(aborted)
    {
      timerRunning := false;
      if !hasAnswered {
        var currentWord := words[currentQuestionIndex].word;
        tracker.MarkWordAsWrong(currentWord);
        buttons.DisableAll();
        advancePending := true;
        recorded := recorded + 1;
      }
    }

    /** `optionButtonTapped`: ignored once the question is answered; otherwise records the answer,
        stops the timer, scores a point for a button marked "correct" (counting toward mastery) or
        marks the word wrong, disables the buttons and schedules the move on. */
    method OptionButtonTapped(k: nat)
      requires Valid() && k < QuizOptions.OptionCount && buttons.enabled[k]
      requires !hasAnswered ==> currentQuestionIndex < |words|
      modifies this, buttons.enabled, tracker
      ensures Valid()
      ensures old(hasAnswered) ==>
        score == old(score) && recorded == old(recorded) && timerRunning == old(timerRunning) &&
        advancePending == old(advancePending) && tracker.State() == old(tracker.State())
      ensures !old(hasAnswered) ==> hasAnswered && !timerRunning && advancePending && recorded == old(recorded) + 1
      ensures !old(hasAnswered) && old(buttons.correct[k]) ==>
        score == old(score) + 1 && tracker.State() == Mastery.MarkCorrect(old(tracker.State()), old(words[currentQuestionIndex].word))
      ensures !old(hasAnswered) && !old(buttons.correct[k]) ==>
        score == old(score) && tracker.State() == Mastery.MarkWrong(old(tracker.State()), old(words[currentQuestionIndex].word))
      ensures words == old(words) && currentQuestionIndex == old(currentQuestionIndex) && finished == old(finished)
      ensures allWords == old(allWords) && ready == old(ready) && aborted == old(aborted)
    {
      if hasAnswered {
        return;
      }
      var isCorrect := buttons.correct[k];
      var currentWord := words[currentQuestionIndex].word;
      if isCorrect {
        tracker.MarkWordAsCorrect(currentWord);
      } else {
        tracker.MarkWordAsWrong(currentWord);
      }
      buttons.DisableAll();
      RecordAnswer(isCorrect);
    }

    /** The rest of a first tap: answered, timer stopped, a point when correct, move on scheduled. */
    method RecordAnswer(isCorrect: bool)
      requires Valid() && !advancePending && !finished
      requires forall k :: 0 <= k < QuizOptions.OptionCount ==> !buttons.enabled[k]
      modifies this
      ensures Valid() && hasAnswered && !timerRunning && advancePending && recorded == old(recorded) + 1
      ensures score == old(score) + (if isCorrect then 1 else 0)
      ensures words == old(words) && allWords == old(allWords) && currentQuestionIndex == old(currentQuestionIndex)
      ensures finished == old(finished) && ready == old(ready) && aborted == old(aborted)
    {
      hasAnswered := true;
      timerRunning := false;
      if isCorrect {
        score := score + 1;
      }
      advancePending := true;
      recorded := recorded + 1;
    }

    /** The callback scheduled by an answer or an expiry: the next question. */
    method Advance(shuffled: seq<Word>, arranged: seq<string>)
      requires Valid() && advancePending && ready
      requires currentQuestionIndex + 1 < TotalQuestions ==> currentQuestionIndex + 1 < |words|
      requires currentQuestionIndex + 1 < TotalQuestions ==>
        QuizOptions.FixedOptionsFor(allWords, words[currentQuestionIndex + 1], shuffled, QuizOptions.FastestFingerPlaceholders, arranged)
      modifies this, buttons.titles, buttons.correct, buttons.enabled
      ensures Valid() && !advancePending
      ensures currentQuestionIndex == old(currentQuestionIndex) + 1 && score == old(score)
      ensures finished <==> currentQuestionIndex == TotalQuestions
      ensures words == old(words) && allWords == old(allWords) && ready && aborted == old(aborted)
      ensures !finished ==> !hasAnswered && timerRunning
      ensures currentQuestionIndex < TotalQuestions ==>
        (|arranged| == QuizOptions.OptionCount &&
         forall k :: 0 <= k < QuizOptions.OptionCount ==>
           buttons.titles[k] == QuizOptions.DisplayTitle(arranged[k]) && buttons.enabled[k] &&
           (buttons.correct[k] <==> arranged[k] == words[currentQuestionIndex].meaning))
    {
      StepToNextQuestion();
      ShowNextQuestion(shuffled, arranged);
    }

    /** The first half of the callback: the index moves on and the callback is no longer pending. */
    method StepToNextQuestion()
      requires Valid() && advancePending
      modifies this
      ensures Inv() && !advancePending && currentQuestionIndex == old(currentQuestionIndex) + 1
      ensures words == old(words) && allWords == old(allWords) && score == old(score) && recorded == old(recorded)
      ensures timerRunning == old(timerRunning) && finished == old(finished) && ready == old(ready) && aborted == old(aborted)
    {
      currentQuestionIndex := currentQuestionIndex + 1;
      advancePending := false;
    }

    /** The final score is at most the number of questions. */
    method FinalScore() returns (s: nat)
      requires Valid() && finished
      ensures s == score && s <= TotalQuestions
    {
      s := score;
    }
  }
}
