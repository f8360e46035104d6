/** The personalized quiz screen (PersonalizedQuizGameViewController.swift): questions on the words
    the tracker has in practice, with options filled into a set.

    `loaded` is what `loadWords(style: .concise)` gives (both calls of the screen read the same
    cached list), `shuffled` the order `words.shuffle()` leaves, and `draws` the words
    `randomElement()` returns while the options are filled. When the draws run out before the set is
    full, the screen is `spinning`: the source's loop is still running on the main thread. */
module PersonalizedGame {
  import opened Wrappers
  import opened Words
  import Seqs
  import Mastery
  import QuizOptions

  const MaxQuestions := 10

  predicate InPractice(active: set<string>, w: Word) {
    w.word in active
  }

  /** The loaded entries whose word is in practice, in corpus order. */
  function PracticeWords(pool: seq<Word>, active: set<string>): (r: seq<Word>)
    ensures forall w :: w in r <==> w in pool && w.word in active
    ensures forall w :: multiset(r)[w] == if w.word in active then multiset(pool)[w] else 0
  {
    var keep := (w: Word) => InPractice(active, w);
    forall w ensures multiset(Seqs.Filter(pool, keep))[w] == if keep(w) then multiset(pool)[w] else 0 {
      Seqs.FilterCount(pool, keep, w);
    }
    assert forall w :: w in Seqs.Filter(pool, keep) <==> w in pool && keep(w) by {
      forall w ensures w in Seqs.Filter(pool, keep) <==> w in pool && keep(w) {
        Seqs.FilterContains(pool, keep, w);
      }
    }
    Seqs.Filter(pool, keep)
  }

  /** A question comes from the corpus: a non-empty shuffle of the practice words needs a
      non-empty corpus. */
  lemma PracticeNeedsCorpus(pool: seq<Word>, active: set<string>, shuffled: seq<Word>)
    requires multiset(shuffled) == multiset(PracticeWords(pool, active))
    ensures |shuffled| > 0 ==> |pool| > 0
  {
    if |shuffled| > 0 {
      assert shuffled[0] in multiset(PracticeWords(pool, active));
    }
  }

  class PersonalizedQuizGameViewController {
    var words: seq<Word>
    var allWords: seq<Word>
    var currentQuestionIndex: nat
    var score: nat
    var totalQuestions: nat
    var advancePending: bool
    var finished: bool
    /** An alert was shown and the screen dismissed. */
    var aborted: bool
    var spinning: bool
    /** The options on the buttons, in button order (`Array(optionsSet).shuffled()`). */
    ghost var shown: seq<string>
    const buttons: QuizOptions.OptionButtons
    const tracker: Mastery.PersonalizedQuizService

    /** At most ten questions, no more than there are words; only answered questions score. */
    predicate Valid()
      reads this, buttons, buttons.enabled
    {
      buttons.Valid() &&
      totalQuestions == Seqs.Min(MaxQuestions, |words|) &&
      score <= currentQuestionIndex + (if advancePending then 1 else 0) &&
      (spinning ==> !advancePending && !finished) &&
      (advancePending ==> !finished && currentQuestionIndex < |words| &&
                          forall k :: 0 <= k < QuizOptions.OptionCount ==> !buttons.enabled[k]) &&
      (finished ==> currentQuestionIndex >= totalQuestions &&
                    forall k :: 0 <= k < QuizOptions.OptionCount ==> !buttons.enabled[k])
    }

    constructor (tracker: Mastery.PersonalizedQuizService)
      ensures Valid() && fresh(buttons) && fresh(buttons.titles) && fresh(buttons.correct) && fresh(buttons.enabled)
      ensures this.tracker == tracker && words == [] && allWords == [] && totalQuestions == 0
      ensures currentQuestionIndex == 0 && score == 0 && !advancePending && !finished && !aborted && !spinning
    {
      this.tracker := tracker;
      words := [];
      allWords := [];
      currentQuestionIndex := 0;
      score := 0;
      totalQuestions := 0;
      advancePending := false;
      finished := false;
      aborted := false;
      spinning := false;
      shown := [];
      buttons := new QuizOptions.OptionButtons();
    }

    /** `loadWords` with `loadAllWordsForDistractors`: with no word in practice, or no corpus, the
        screen aborts before any question. Otherwise the questions are the corpus entries in
        practice, shuffled, at most ten of them, and it aborts when there are none. */
    method LoadWords(loaded: Option<seq<Word>>, shuffled: seq<Word>)
      requires Valid() && words == [] && currentQuestionIndex == 0 && !advancePending && !finished && !aborted
      requires loaded.Some? ==> multiset(shuffled) == multiset(PracticeWords(loaded.value, tracker.wrongWords.Keys))
      modifies this
      ensures Valid() && currentQuestionIndex == 0 && score == old(score) && !advancePending && !finished
      ensures spinning == old(spinning)
      ensures |tracker.wrongWords| == 0 || loaded.None? ==> aborted && words == []
      ensures |tracker.wrongWords| > 0 && loaded.Some? ==>
        words == shuffled && allWords == loaded.value &&
        multiset(words) == multiset(PracticeWords(loaded.value, tracker.wrongWords.Keys)) &&
        totalQuestions == Seqs.Min(MaxQuestions, |words|) && (aborted <==> words == [])
    {
      var practiceWordStrings := tracker.GetWrongWordsForQuiz();
      if |practiceWordStrings| == 0 {
        aborted := true;
        return;
      }
      if loaded.None? {
        aborted := true;
        return;
      }
      // the source filters on membership in `practiceWordStrings`, which holds exactly the tracked words
      PracticeNeedsCorpus(loaded.value, tracker.wrongWords.Keys, shuffled);
      words := shuffled;
      totalQuestions := Seqs.Min(MaxQuestions, |words|);
      allWords := loaded.value;
      if |words| == 0 || |allWords| == 0 {
        aborted := true;
      }
    }

    /** `showNextQuestion`: the results once `totalQuestions` questions were asked, otherwise the
        set-filled options for the current word on the buttons. */
    method ShowNextQuestion(draws: seq<Word>)
      requires Valid() && !advancePending && !spinning
      requires currentQuestionIndex < totalQuestions ==>
        forall i :: 0 <= i < |draws| ==> draws[i] in QuizOptions.Others(allWords, words[currentQuestionIndex])
      modifies this, buttons.titles, buttons.correct, buttons.enabled
      ensures Valid() && !advancePending
      ensures finished <==> currentQuestionIndex >= totalQuestions
      ensures words == old(words) && allWords == old(allWords) && currentQuestionIndex == old(currentQuestionIndex)
      ensures score == old(score) && totalQuestions == old(totalQuestions) && aborted == old(aborted)
      ensures currentQuestionIndex < totalQuestions ==>
        (spinning <==> |QuizOptions.Fill({words[currentQuestionIndex].meaning}, draws)| < QuizOptions.OptionCount)
      ensures currentQuestionIndex >= totalQuestions ==> !spinning
      ensures spinning ==>
        buttons.titles[..] == old(buttons.titles[..]) && buttons.correct[..] == old(buttons.correct[..]) &&
        buttons.enabled[..] == old(buttons.enabled[..])
      ensures currentQuestionIndex < totalQuestions && !spinning ==>
        var fill := QuizOptions.Fill({words[currentQuestionIndex].meaning}, draws);
        words[currentQuestionIndex].meaning in fill &&
        |shown| == QuizOptions.OptionCount && Seqs.NoDuplicates(shown) && (forall o :: o in shown <==> o in fill) &&
        forall k :: 0 <= k < QuizOptions.OptionCount ==>
          buttons.titles[k] == QuizOptions.DisplayTitle(shown[k]) && buttons.enabled[k]
    {
      if currentQuestionIndex >= totalQuestions {
        // showQuizResults hides the options; hidden buttons receive no taps
        buttons.DisableAll();
        finished := true;
        return;
      }
      PresentQuestion(draws);
    }

    /** The question part of `showNextQuestion`: the set-filled options on the buttons, or the
        fill loop still spinning. */
    method PresentQuestion(draws: seq<Word>)
      requires Valid() && !advancePending && !spinning && !finished && currentQuestionIndex < totalQuestions
      requires forall i :: 0 <= i < |draws| ==> draws[i] in QuizOptions.Others(allWords, words[currentQuestionIndex])
      modifies this, buttons.titles, buttons.correct, buttons.enabled
      ensures Valid() && !advancePending && !finished
      ensures words == old(words) && allWords == old(allWords) && currentQuestionIndex == old(currentQuestionIndex)
      ensures score == old(score) && totalQuestions == old(totalQuestions) && aborted == old(aborted)
      ensures spinning <==> |QuizOptions.Fill({words[currentQuestionIndex].meaning}, draws)| < QuizOptions.OptionCount
      ensures spinning ==>
        buttons.titles[..] == old(buttons.titles[..]) && buttons.correct[..] == old(buttons.correct[..]) &&
        buttons.enabled[..] == old(buttons.enabled[..])
      ensures !spinning ==>
        var fill := QuizOptions.Fill({words[currentQuestionIndex].meaning}, draws);
        words[currentQuestionIndex].meaning in fill &&
        |shown| == QuizOptions.OptionCount && Seqs.NoDuplicates(shown) && (forall o :: o in shown <==> o in fill) &&
        forall k :: 0 <= k < QuizOptions.OptionCount ==>
          buttons.titles[k] == QuizOptions.DisplayTitle(shown[k]) && buttons.enabled[k]
    {
      var currentWord := words[currentQuestionIndex];
      var options := QuizOptions.GenerateSetOptions(currentWord, allWords, draws);
      if options.None? {
        spinning := true;
        return;
      }
      shown := options.value;
      buttons.Show(options.value, currentWord.meaning, false);
    }

    /** `optionButtonTapped`: the buttons are disabled first; the answer is correct iff the
        button's title is the word's meaning. Correct scores a point and counts toward mastery,
        wrong resets the word's streak. Then the move on is scheduled. */
    method OptionButtonTapped(k: nat)
      requires Valid() && k < QuizOptions.OptionCount && buttons.enabled[k]
      requires currentQuestionIndex < |words| && !spinning
      modifies this, buttons.enabled, tracker
      ensures Valid() && advancePending
      ensures var word := old(words[currentQuestionIndex]);
        if old(buttons.titles[k]) == word.meaning then
          score == old(score) + 1 && tracker.State() == Mastery.MarkCorrect(old(tracker.State()), word.word)
        else
          score == old(score) && tracker.State() == Mastery.ResetStreak(old(tracker.State()), word.word)
      ensures words == old(words) && currentQuestionIndex == old(currentQuestionIndex)
      ensures totalQuestions == old(totalQuestions) && finished == old(finished)
      ensures allWords == old(allWords) && aborted == old(aborted) && spinning == old(spinning)
    {
      buttons.DisableAll();
      var currentWord := words[currentQuestionIndex];
      var selectedOption := buttons.titles[k];
      var isCorrect := selectedOption == currentWord.meaning;
      if isCorrect {
        score := score + 1;
        tracker.MarkWordAsCorrect(currentWord.word);
      } else {
        tracker.ResetWordStreak(currentWord.word);
      }
      advancePending := true;
    }

    /** The callback scheduled by a tap: the next question. */
    method Advance(draws: seq<Word>)
      requires Valid() && advancePending
      requires currentQuestionIndex + 1 < totalQuestions ==>
        forall i :: 0 <= i < |draws| ==> draws[i] in QuizOptions.Others(allWords, words[currentQuestionIndex + 1])
      modifies this, buttons.titles, buttons.correct, buttons.enabled
      ensures Valid() && !advancePending
      ensures currentQuestionIndex == old(currentQuestionIndex) + 1 && score == old(score)
      ensures finished <==> currentQuestionIndex >= totalQuestions
      ensures words == old(words) && allWords == old(allWords) && totalQuestions == old(totalQuestions)
      ensures aborted == old(aborted)
      ensures currentQuestionIndex < totalQuestions ==>
        (spinning <==> |QuizOptions.Fill({words[currentQuestionIndex].meaning}, draws)| < QuizOptions.OptionCount)
      ensures currentQuestionIndex >= totalQuestions ==> !spinning
      ensures spinning ==>
        buttons.titles[..] == old(buttons.titles[..]) && buttons.correct[..] == old(buttons.correct[..]) &&
        buttons.enabled[..] == old(buttons.enabled[..])
      ensures currentQuestionIndex < totalQuestions && !spinning ==>
        var fill := QuizOptions.Fill({words[currentQuestionIndex].meaning}, draws);
        words[currentQuestionIndex].meaning in fill &&
        |shown| == QuizOptions.OptionCount && Seqs.NoDuplicates(shown) && (forall o :: o in shown <==> o in fill) &&
        forall k :: 0 <= k < QuizOptions.OptionCount ==>
          buttons.titles[k] == QuizOptions.DisplayTitle(shown[k]) && buttons.enabled[k]
    {
      currentQuestionIndex := currentQuestionIndex + 1;
      advancePending := false;
      ShowNextQuestion(draws);
    }
  }
}
