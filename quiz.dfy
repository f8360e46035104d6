/** The classic multiple-choice quiz screen (QuizViewController.swift).

    The screen's state is a class over the shared tracker and the four option buttons. The
    1.5-second callback a tap registers is `advancePending`, and running it is `Advance`. Shuffles
    are parameters: `shuffled` is the order of the other words, `arranged` the order of the four
    options. */
module ClassicQuiz {
  import opened Wrappers
  import opened Words
  import Mastery
  import QuizOptions

  const TotalWordsToShow := 10

  class QuizViewController {
    var words: seq<Word>
    var allWords: seq<Word>
    var currentQuestionIndex: nat
    var score: nat
    var wrongAnswers: seq<string>
    /** A tap has registered the callback that moves to the next question. */
    var advancePending: bool
    /** `showQuizResults` has run. */
    var finished: bool
    /** Loading succeeded and the first question may be shown. */
    var ready: bool
    /** An alert was shown and the screen dismissed: no question is ever asked. */
    var aborted: bool
    const buttons: QuizOptions.OptionButtons
    const tracker: Mastery.PersonalizedQuizService

    /** Every answered question is counted exactly once: as a point or as a wrong answer. */
    predicate Valid()
      reads this, buttons, buttons.enabled
    {
      buttons.Valid() &&
      currentQuestionIndex <= |words| &&
      (finished ==> currentQuestionIndex == |words|) &&
      score + |wrongAnswers| == currentQuestionIndex + (if advancePending then 1 else 0) &&
      (ready ==> words != [] && allWords != [] && !aborted) &&
      (advancePending ==> currentQuestionIndex < |words| && forall k :: 0 <= k < QuizOptions.OptionCount ==> !buttons.enabled[k])
    }

    /** `init(words:)` followed by `viewDidLoad`'s button setup. No words (`nil`) and an empty list
        both leave `words` empty. */
    constructor (words: seq<Word>, tracker: Mastery.PersonalizedQuizService)
      ensures Valid() && fresh(buttons) && fresh(buttons.titles) && fresh(buttons.correct) && fresh(buttons.enabled)
      ensures this.words == words && allWords == [] && this.tracker == tracker
      ensures currentQuestionIndex == 0 && score == 0 && wrongAnswers == [] && !advancePending && !finished
      ensures !ready && !aborted
    {
      this.words := words;
      this.allWords := [];
      ready := false;
      aborted := false;
      this.tracker := tracker;
      currentQuestionIndex := 0;
      score := 0;
      wrongAnswers := [];
      advancePending := false;
      finished := false;
      buttons := new QuizOptions.OptionButtons();
    }

    /** `viewDidLoad`'s loading. With no words given, `loadWords` takes ten random words of the
        corpus; `loadAllWordsForDistractors` then takes the whole corpus for the distractors. Both
        read the same cached `loadWords(style: .concise)`, which is `corpus`, and `shuffled` is the
        order `getRandomWords` shuffles it into. Any failure shows an alert and dismisses the screen;
        otherwise the first question is shown (`ready`). */
    method LoadWords(corpus: Option<seq<Word>>, shuffled: seq<Word>)
      requires Valid() && allWords == [] && currentQuestionIndex == 0 && !advancePending && !finished
      requires !ready && !aborted
      requires corpus.Some? ==> multiset(shuffled) == multiset(corpus.value)
      modifies this
      ensures Valid() && currentQuestionIndex == 0 && !advancePending && !finished
      ensures score == old(score) && wrongAnswers == old(wrongAnswers)
      ensures old(words) != [] ==> words == old(words)
      ensures old(words) == [] ==>
        var picked := GetRandomWords(corpus, TotalWordsToShow, shuffled);
        words == if picked.Some? then picked.value else []
      ensures allWords == if corpus.Some? then corpus.value else []
      ensures ready <==> corpus.Some? && corpus.value != [] && words != []
      ensures aborted <==> !ready
    {
      if words == [] {
        var randomWords := GetRandomWords(corpus, TotalWordsToShow, shuffled);
        if randomWords.None? {
          aborted := true;
          return;
        }
        words := randomWords.value;
      }
      if corpus.None? {
        aborted := true;
        return;
      }
      allWords := corpus.value;
      if words != [] && allWords != [] {
        ready := true;
      } else {
        aborted := true;
      }
    }

    /** `showNextQuestion`: the results once every word has been asked, otherwise the options for
        the current word (which re-enables the buttons). It only runs after a successful load. */
    method ShowNextQuestion(shuffled: seq<Word>, arranged: seq<string>)
      requires Valid() && !advancePending && ready
      requires currentQuestionIndex < |words| ==> QuizOptions.FixedOptionsFor(allWords, words[currentQuestionIndex], shuffled, QuizOptions.QuizPlaceholders, arranged)
      modifies this, buttons.titles, buttons.correct, buttons.enabled
      ensures Valid()
      ensures finished <==> currentQuestionIndex >= |words|
      ensures words == old(words) && allWords == old(allWords) && currentQuestionIndex == old(currentQuestionIndex)
      ensures score == old(score) && wrongAnswers == old(wrongAnswers) && !advancePending
      ensures ready && aborted == old(aborted)
      ensures currentQuestionIndex < |words| ==>
        (|arranged| == QuizOptions.OptionCount &&
         forall k :: 0 <= k < QuizOptions.OptionCount ==>
           buttons.titles[k] == QuizOptions.DisplayTitle(arranged[k]) && buttons.enabled[k] &&
           (buttons.correct[k] <==> arranged[k] == words[currentQuestionIndex].meaning))
    {
      if currentQuestionIndex >= |words| {
        finished := true;
        return;
      }
      finished := false;
      buttons.ShowFixedOptions(allWords, words[currentQuestionIndex], shuffled, QuizOptions.QuizPlaceholders, arranged);
    }

    /** `optionButtonTapped`: a button marked "correct" scores a point and counts toward mastery;
        any other button marks the word wrong and adds it to the wrong answers. The buttons
        are then disabled and the move to the next question is scheduled. Only an enabled button
        delivers a tap, and the current word is read without a bound check. */
    method OptionButtonTapped(k: nat)
      requires Valid() && k < QuizOptions.OptionCount && buttons.enabled[k]
      requires currentQuestionIndex < |words|
      modifies this, buttons.enabled, tracker
      ensures Valid() && advancePending
      ensures var word := words[currentQuestionIndex].word;
        if old(buttons.correct[k]) then
          score == old(score) + 1 && wrongAnswers == old(wrongAnswers) &&
          tracker.State() == Mastery.MarkCorrect(old(tracker.State()), word)
        else
          score == old(score) && wrongAnswers == old(wrongAnswers) + [word] &&
          tracker.State() == Mastery.MarkWrong(old(tracker.State()), word)
      ensures words == old(words) && allWords == old(allWords) && currentQuestionIndex == old(currentQuestionIndex)
      ensures finished == old(finished) && ready == old(ready) && aborted == old(aborted)
    {
      var isCorrect := buttons.correct[k];
      var currentWord := words[currentQuestionIndex].word;
      if isCorrect {
        tracker.MarkWordAsCorrect(currentWord);
      } else {
        tracker.MarkWordAsWrong(currentWord);
        wrongAnswers := wrongAnswers + [currentWord];
      }
      if isCorrect {
        score := score + 1;
      }
      buttons.DisableAll();
      advancePending := true;
    }

    /** The callback scheduled by a tap: the next question. */
    method Advance(shuffled: seq<Word>, arranged: seq<string>)
      requires Valid() && advancePending && ready
      requires currentQuestionIndex + 1 < |words| ==> QuizOptions.FixedOptionsFor(allWords, words[currentQuestionIndex + 1], shuffled, QuizOptions.QuizPlaceholders, arranged)
      modifies this, buttons.titles, buttons.correct, buttons.enabled
      ensures Valid() && !advancePending
      ensures currentQuestionIndex == old(currentQuestionIndex) + 1
      ensures finished <==> currentQuestionIndex == |words|
      ensures score == old(score) && wrongAnswers == old(wrongAnswers)
      ensures words == old(words) && allWords == old(allWords) && ready && aborted == old(aborted)
      ensures currentQuestionIndex < |words| ==>
        (|arranged| == QuizOptions.OptionCount &&
         forall k :: 0 <= k < QuizOptions.OptionCount ==>
           buttons.titles[k] == QuizOptions.DisplayTitle(arranged[k]) && buttons.enabled[k] &&
           (buttons.correct[k] <==> arranged[k] == words[currentQuestionIndex].meaning))
    {
      StepToNextQuestion();
      ShowNextQuestion(shuffled, arranged);
    }

    /** The first half of the callback: the index moves on and the callback is no longer pending. */
    method StepToNextQuestion()
      requires Valid() && advancePending
      modifies this
      ensures Valid() && !advancePending && currentQuestionIndex == old(currentQuestionIndex) + 1
      ensures words == old(words) && allWords == old(allWords) && score == old(score) && wrongAnswers == old(wrongAnswers)
      ensures finished == old(finished) && ready == old(ready) && aborted == old(aborted)
    {
      currentQuestionIndex := currentQuestionIndex + 1;
      advancePending := false;
    }

    /** `finishButtonTapped`: the score out of the number of words, and the wrong answers. When
        every question was answered, the points and the wrong answers add up to the word count. */
    method FinishButtonTapped() returns (correct: nat, total: nat, wrong: seq<string>)
      requires Valid()
      ensures correct == score && total == |words| && wrong == wrongAnswers
      ensures correct + |wrong| <= total
      ensures finished && !advancePending ==> correct + |wrong| == total
    {
      correct, total, wrong := score, |words|, wrongAnswers;
    }
  }
}
