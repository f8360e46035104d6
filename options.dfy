/** The four answer options of the quiz screens and the buttons that show them.

    Two recipes exist. The classic quiz and the fastest-finger quiz take three distractors from a
    shuffled list of the other words, or three fixed placeholder texts when there are fewer than
    three other words (QuizViewController.swift, FastestFingerQuizViewController.swift). The
    personalized quiz fills a set with the meanings of random other words until it holds four
    strings (PersonalizedQuizGameViewController.swift). Every shuffle is a parameter constrained to
    be a rearrangement, and every `randomElement()` is the next entry of a `draws` sequence. */
module QuizOptions {
  import opened Wrappers
  import opened Words
  import Seqs

  const OptionCount := 4
  const NotAvailable := "Option text not available"

  const QuizPlaceholders := ["The opposite of what you might think.",
                             "A concept related to mathematics or physics.",
                             "A term used in ancient literature."]
  const FastestFingerPlaceholders := ["The opposite meaning", "Unrelated concept", "Different context entirely"]

  predicate OtherWord(target: Word, w: Word) {
    w.word != target.word
  }

  /** `allWords.filter { $0.word != correctWord.word }`. */
  function Others(pool: seq<Word>, target: Word): (r: seq<Word>)
    ensures forall w :: w in r <==> w in pool && w.word != target.word
    ensures Seqs.IsSubsequence(r, pool)
    ensures forall w :: multiset(r)[w] == if w.word != target.word then multiset(pool)[w] else 0
  {
    var keep := (w: Word) => OtherWord(target, w);
    Seqs.FilterIsSubsequence(pool, keep);
    forall w ensures multiset(Seqs.Filter(pool, keep))[w] == if keep(w) then multiset(pool)[w] else 0 {
      Seqs.FilterCount(pool, keep, w);
    }
    assert forall w :: w in Seqs.Filter(pool, keep) <==> w in pool && keep(w) by {
      forall w ensures w in Seqs.Filter(pool, keep) <==> w in pool && keep(w) {
        Seqs.FilterContains(pool, keep, w);
      }
    }
    Seqs.Filter(pool, keep)
  }

  function Meanings(ws: seq<Word>): (r: seq<string>)
    ensures |r| == |ws| && forall i :: 0 <= i < |ws| ==> r[i] == ws[i].meaning
  {
    seq(|ws|, i requires 0 <= i < |ws| => ws[i].meaning)
  }

  // ---------------------------------------------------------------------------------------------
  // Fixed-count distractors (classic and fastest-finger quiz)

  /** `incorrectMeanings`: `shuffled` is the order `availableWords.shuffle()` left the other words
      in. With fewer than three other words the placeholders are used; otherwise the meanings of
      the first three shuffled entries, three distinct entries of the pool that are not the target. */
  function Distractors(pool: seq<Word>, target: Word, shuffled: seq<Word>, placeholders: seq<string>): (r: seq<string>)
    requires |placeholders| == 3
    requires multiset(shuffled) == multiset(Others(pool, target))
    ensures |r| == 3
    ensures |Others(pool, target)| < 3 ==> r == placeholders
    ensures |Others(pool, target)| >= 3 ==>
      (|shuffled| >= 3 && multiset(shuffled[..3]) <= multiset(Others(pool, target)) &&
       forall i :: 0 <= i < 3 ==> r[i] == shuffled[i].meaning && shuffled[i] in pool && shuffled[i].word != target.word)
  {
    assert |shuffled| == |Others(pool, target)| by {
      assert |multiset(shuffled)| == |multiset(Others(pool, target))|;
    }
    if |shuffled| < 3 then placeholders
    else
      Seqs.PrefixSubMultiset(shuffled, 3);
      assert forall i :: 0 <= i < 3 ==> shuffled[i] in multiset(Others(pool, target)) by {
        forall i | 0 <= i < 3 ensures shuffled[i] in multiset(Others(pool, target)) {
          assert shuffled[i] in multiset(shuffled);
        }
      }
      Meanings(shuffled[..3])
  }

  /** `[correctMeaning] + incorrectMeanings`, shuffled into `arranged`: four options, the correct
      meaning among them, every other one a distractor. */
  lemma ArrangedOptions(correct: string, distractors: seq<string>, arranged: seq<string>)
    requires |distractors| == 3
    requires multiset(arranged) == multiset([correct] + distractors)
    ensures |arranged| == OptionCount
    ensures correct in arranged
    ensures forall k :: 0 <= k < |arranged| ==> arranged[k] == correct || arranged[k] in distractors
  {
    assert |arranged| == |multiset(arranged)| == |multiset([correct] + distractors)|;
    assert correct in multiset(arranged);
    forall k | 0 <= k < |arranged| ensures arranged[k] == correct || arranged[k] in distractors {
      assert arranged[k] in multiset([correct] + distractors);
      assert arranged[k] in [correct] + distractors;
    }
  }

  /** `shuffled` and `arranged` are orders the two shuffles of `generateOptions(for:)` can produce
      for `target`: the other words, then the correct meaning with the distractors. */
  predicate FixedOptionsFor(allWords: seq<Word>, target: Word, shuffled: seq<Word>, placeholders: seq<string>,
                            arranged: seq<string>)
  {
    |placeholders| == 3 &&
    multiset(shuffled) == multiset(Others(allWords, target)) &&
    multiset(arranged) == multiset([target.meaning] + Distractors(allWords, target, shuffled, placeholders))
  }

  /** The "correct" marks the classic layout stores: one per option equal to the correct meaning. */
  function Tags(options: seq<string>, correct: string): (r: seq<bool>)
    ensures |r| == |options|
    ensures forall k :: 0 <= k < |options| ==> (r[k] <==> options[k] == correct)
  {
    seq(|options|, k requires 0 <= k < |options| => options[k] == correct)
  }

  /** How many buttons carry the "correct" mark. */
  function CorrectMarks(tags: seq<bool>): (n: nat)
    ensures n == multiset(tags)[true] && n <= |tags|
    decreases |tags|
  {
    if tags == [] then 0
    else
      assert tags == tags[..|tags| - 1] + [tags[|tags| - 1]];
      CorrectMarks(tags[..|tags| - 1]) + (if tags[|tags| - 1] then 1 else 0)
  }

  lemma {:induction false} CorrectMarksCount(options: seq<string>, correct: string)
    ensures CorrectMarks(Tags(options, correct)) == multiset(options)[correct]
    decreases |options|
  {
    if options != [] {
      var front := options[..|options| - 1];
      CorrectMarksCount(front, correct);
      assert Tags(options, correct)[..|options| - 1] == Tags(front, correct);
      assert options == front + [options[|options| - 1]];
    }
  }

  /** At least one button is marked correct; a distractor whose meaning equals the correct meaning
      is marked correct too, so two buttons then carry the mark. */
  lemma {:induction false} MarksCountMeaning(correct: string, distractors: seq<string>, arranged: seq<string>)
    requires |distractors| == 3
    requires multiset(arranged) == multiset([correct] + distractors)
    ensures CorrectMarks(Tags(arranged, correct)) == 1 + multiset(distractors)[correct]
    ensures correct in distractors ==> CorrectMarks(Tags(arranged, correct)) >= 2
  {
    CorrectMarksCount(arranged, correct);
    assert multiset([correct] + distractors) == multiset{correct} + multiset(distractors);
  }

  /** What a button shows for an option: an empty title is replaced. */
  function DisplayTitle(option: string): (t: string)
    ensures t != ""
    ensures option != "" ==> t == option
  {
    if option == "" then NotAvailable else option
  }

  // ---------------------------------------------------------------------------------------------
  // Set-filled options (personalized quiz)

  function MeaningSet(ws: seq<Word>): set<string> {
    set i | 0 <= i < |ws| :: ws[i].meaning
  }

  /** The option set after the `while optionsSet.count < 4` loop has used the draws `draws`
      (or has stopped early because the set is full). */
  function Fill(s: set<string>, draws: seq<Word>): (r: set<string>)
    ensures s <= r
    ensures |s| >= OptionCount ==> r == s
    decreases |draws|
  {
    if |s| >= OptionCount || draws == [] then s else Fill(s + {draws[0].meaning}, draws[1..])
  }

  lemma {:induction false} FillWithin(s: set<string>, draws: seq<Word>, bound: set<string>)
    requires s <= bound
    requires forall i :: 0 <= i < |draws| ==> draws[i].meaning in bound
    ensures s <= Fill(s, draws) <= bound
    ensures |s| <= OptionCount ==> |Fill(s, draws)| <= OptionCount
    decreases |draws|
  {
    if |s| < OptionCount && draws != [] {
      assert forall i :: 0 <= i < |draws[1..]| ==> draws[1..][i] == draws[i + 1];
      FillWithin(s + {draws[0].meaning}, draws[1..], bound);
    }
  }

  /** The loop can never stop when the other words supply fewer than three meanings distinct from
      the target's: whatever the draws, the set stays below four strings. */
  lemma FillNeverCompletes(target: Word, others: seq<Word>, draws: seq<Word>)
    requires |MeaningSet(others) - {target.meaning}| < 3
    requires forall i :: 0 <= i < |draws| ==> draws[i] in others
    ensures |Fill({target.meaning}, draws)| < OptionCount
  {
    var bound := {target.meaning} + MeaningSet(others);
    forall i | 0 <= i < |draws| ensures draws[i].meaning in bound {
      var j :| 0 <= j < |others| && others[j] == draws[i];
    }
    FillWithin({target.meaning}, draws, bound);
    assert bound == {target.meaning} + (MeaningSet(others) - {target.meaning});
    assert |bound| < OptionCount;
    SubsetSize(Fill({target.meaning}, draws), bound);
  }

  lemma SubsetSize(a: set<string>, b: set<string>)
    requires a <= b
    ensures |a| <= |b|
  {
    assert b == a + (b - a);
  }

  /** With three other words of distinct meanings, all different from the target's, drawing those
      three completes the set. */
  lemma FillCanComplete(target: Word, w1: Word, w2: Word, w3: Word)
    requires target.meaning != w1.meaning && target.meaning != w2.meaning && target.meaning != w3.meaning
    requires w1.meaning != w2.meaning && w1.meaning != w3.meaning && w2.meaning != w3.meaning
    ensures Fill({target.meaning}, [w1, w2, w3]) == {target.meaning, w1.meaning, w2.meaning, w3.meaning}
    ensures |Fill({target.meaning}, [w1, w2, w3])| == OptionCount
  {
    var t, m1, m2, m3 := target.meaning, w1.meaning, w2.meaning, w3.meaning;
    assert [w1, w2, w3][1..] == [w2, w3];
    assert [w2, w3][1..] == [w3];
    assert |{t, m1}| == 2;
    assert |{t, m1, m2}| == 3;
    assert |{t, m1, m2, m3}| == 4;
    assert |{t}| == 1 && {t} + {m1} == {t, m1} && {t, m1} + {m2} == {t, m1, m2};
    assert Fill({t}, [w1, w2, w3]) == Fill({t, m1}, [w2, w3]);
    assert Fill({t, m1}, [w2, w3]) == Fill({t, m1, m2}, [w3]);
    assert Fill({t, m1, m2}, [w3]) == Fill({t, m1, m2, m3}, [w3][1..]);
  }

  /** The `while optionsSet.count < 4` loop: one draw's meaning joins the set per round. */
  method FillSet(start: set<string>, draws: seq<Word>) returns (optionsSet: set<string>)
    ensures optionsSet == Fill(start, draws)
  {
    optionsSet := start;
    var next := 0;
    while |optionsSet| < OptionCount && next < |draws|
      invariant 0 <= next <= |draws|
      invariant Fill(optionsSet, draws[next..]) == Fill(start, draws)
      decreases |draws| - next
    {
      assert draws[next..][1..] == draws[next + 1..];
      optionsSet := optionsSet + {draws[next].meaning};
      next := next + 1;
    }
    if next == |draws| {
      assert draws[next..] == [];
    }
  }

  /** `generateOptions(for:)` of the personalized quiz. `draws` are the words `randomElement()`
      returns, in order. Some: the loop filled the set within these draws, and the result is the set
      in some order (`Array(optionsSet).shuffled()`). None: the draws ran out first; the source keeps
      looping, indefinitely when `FillNeverCompletes` applies. */
  method GenerateSetOptions(word: Word, allWords: seq<Word>, draws: seq<Word>) returns (r: Option<seq<string>>)
    requires forall i :: 0 <= i < |draws| ==> draws[i] in Others(allWords, word)
    ensures r.Some? <==> |Fill({word.meaning}, draws)| == OptionCount
    ensures r.None? ==> |Fill({word.meaning}, draws)| < OptionCount
    ensures r.Some? ==> |r.value| == OptionCount && Seqs.NoDuplicates(r.value)
    ensures r.Some? ==> forall o :: o in r.value <==> o in Fill({word.meaning}, draws)
    ensures r.Some? ==> word.meaning in r.value
    ensures r.Some? ==> forall o :: o in r.value && o != word.meaning ==>
      exists w :: w in allWords && w.word != word.word && w.meaning == o
  {
    var bound := {word.meaning} + MeaningSet(Others(allWords, word));
    forall i | 0 <= i < |draws| ensures draws[i].meaning in bound {
      var others := Others(allWords, word);
      assert draws[i] in others;
      var j :| 0 <= j < |others| && others[j] == draws[i];
    }
    FillWithin({word.meaning}, draws, bound);
    var optionsSet := FillSet({word.meaning}, draws);
    if |optionsSet| < OptionCount {
      return None;
    }
    var arranged := Seqs.SetToSequence(optionsSet);
    forall o | o in arranged && o != word.meaning
      ensures exists w :: w in allWords && w.word != word.word && w.meaning == o
    {
      var others := Others(allWords, word);
      var j :| 0 <= j < |others| && others[j].meaning == o;
      assert others[j] in allWords;
    }
    r := Some(arranged);
  }

  // ---------------------------------------------------------------------------------------------
  // The four buttons

  /** The four option buttons created when a quiz screen is set up: their titles, whether the
      classic layout marked them "correct", and whether they accept taps. */
  class OptionButtons {
    const titles: array<string>
    const correct: array<bool>
    const enabled: array<bool>

    predicate Valid()
      reads this
    {
      titles.Length == OptionCount && correct.Length == OptionCount && enabled.Length == OptionCount &&
      correct != enabled
    }

    constructor ()
      ensures Valid() && fresh(titles) && fresh(correct) && fresh(enabled)
      ensures titles[..] == ["", "", "", ""] && correct[..] == [false, false, false, false]
      ensures enabled[..] == [true, true, true, true]
    {
      titles := new string[OptionCount](_ => "");
      correct := new bool[OptionCount](_ => false);
      enabled := new bool[OptionCount](_ => true);
    }

    /** The title loop of `generateOptions` / `showNextQuestion`: button `k` shows option `k` and
        is enabled (and, when `mark` is set, marked correct iff that option is the correct meaning);
        then every button left with an empty title shows the replacement text. */
    method Show(options: seq<string>, correctMeaning: string, mark: bool)
      requires Valid() && |options| <= OptionCount
      modifies titles, correct, enabled
      ensures forall k :: 0 <= k < |options| ==> titles[k] == DisplayTitle(options[k]) && enabled[k]
      ensures forall k :: |options| <= k < OptionCount ==> titles[k] == DisplayTitle(old(titles[k])) && enabled[k] == old(enabled[k])
      ensures mark ==> forall k :: 0 <= k < |options| ==> (correct[k] <==> options[k] == correctMeaning)
      ensures forall k :: (!mark || |options| <= k) && 0 <= k < OptionCount ==> correct[k] == old(correct[k])
    {
      SetTitles(options);
      if mark {
        MarkCorrect(options, correctMeaning);
      }
      ReplaceEmptyTitles();
    }

    /** The fixed-layout question of the classic and timed quizzes: the four arranged options on
        the buttons, all enabled, each tagged correct iff it is the target's meaning. */
    method ShowFixedOptions(allWords: seq<Word>, target: Word, shuffled: seq<Word>, placeholders: seq<string>,
                            arranged: seq<string>)
      requires Valid() && FixedOptionsFor(allWords, target, shuffled, placeholders, arranged)
      modifies titles, correct, enabled
      ensures |arranged| == OptionCount
      ensures forall k :: 0 <= k < OptionCount ==>
        titles[k] == DisplayTitle(arranged[k]) && enabled[k] && (correct[k] <==> arranged[k] == target.meaning)
    {
      var distractors := Distractors(allWords, target, shuffled, placeholders);
      ArrangedOptions(target.meaning, distractors, arranged);
      Show(arranged, target.meaning, true);
    }

    /** Button `k` gets option `k` as its title and is enabled; the other buttons are untouched. */
    method SetTitles(options: seq<string>)
      requires Valid() && |options| <= OptionCount
      modifies titles, enabled
      ensures forall k :: 0 <= k < |options| ==> titles[k] == options[k] && enabled[k]
      ensures forall k :: |options| <= k < OptionCount ==> titles[k] == old(titles[k]) && enabled[k] == old(enabled[k])
    {
      for index := 0 to |options|
        invariant forall k :: 0 <= k < index ==> titles[k] == options[k] && enabled[k]
        invariant forall k :: index <= k < OptionCount ==> titles[k] == old(titles[k]) && enabled[k] == old(enabled[k])
      {
        titles[index] := options[index];
        enabled[index] := true;
      }
    }

    /** Button `k` is tagged correct iff option `k` is the correct meaning; the other tags stay. */
    method MarkCorrect(options: seq<string>, correctMeaning: string)
      requires Valid() && |options| <= OptionCount
      modifies correct
      ensures forall k :: 0 <= k < |options| ==> (correct[k] <==> options[k] == correctMeaning)
      ensures forall k :: |options| <= k < OptionCount ==> correct[k] == old(correct[k])
    {
      for index := 0 to |options|
        invariant forall k :: 0 <= k < index ==> (correct[k] <==> options[k] == correctMeaning)
        invariant forall k :: index <= k < OptionCount ==> correct[k] == old(correct[k])
      {
        correct[index] := options[index] == correctMeaning;
      }
    }

    /** Every empty title becomes the replacement text. */
    method ReplaceEmptyTitles()
      requires Valid()
      modifies titles
      ensures forall k :: 0 <= k < OptionCount ==> titles[k] == DisplayTitle(old(titles[k]))
    {
      for k := 0 to OptionCount
        invariant forall j :: 0 <= j < k ==> titles[j] == DisplayTitle(old(titles[j]))
        invariant forall j :: k <= j < OptionCount ==> titles[j] == old(titles[j])
      {
        if titles[k] == "" {
          titles[k] := NotAvailable;
        }
      }
    }

    method DisableAll()
      requires Valid()
      modifies enabled
      ensures enabled[..] == [false, false, false, false]
    {
      for k := 0 to OptionCount
        invariant forall j :: 0 <= j < k ==> !enabled[j]
      {
        enabled[k] := false;
      }
    }
  }
}
