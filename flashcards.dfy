/** The flash-card screen (FlashCardViewController.swift): a shuffled corpus shown in batches of
    ten cards, a set of learned words, the words viewed today and the order they were viewed in.

    Shuffles are parameters constrained to be permutations. The animations, the card image, the
    storage of the sets and the deferred calls are left out; a deferred call the screen schedules
    is returned as a `FollowUp` or a flag for the caller to run. */
module FlashCards {
  import opened Wrappers
  import opened Words
  import Seqs

  const BatchSize := 10
  /** `takeQuizButtonTapped` wants at least this many viewed words ... */
  const MinQuizWords := 5
  /** ... and quizzes at most this many of the latest ones. */
  const MaxQuizWords := 10

  // ----- Which words the screen shows -----

  function UnlearnedKeep(learned: set<string>): Word -> bool {
    (w: Word) => w.word !in learned
  }

  function LearnedKeep(learned: set<string>): Word -> bool {
    (w: Word) => w.word in learned
  }

  /** `allWords.filter { !learnedWords.contains($0.word) }`, in corpus order. */
  function Unlearned(ws: seq<Word>, learned: set<string>): seq<Word> {
    Seqs.Filter(ws, UnlearnedKeep(learned))
  }

  /** The unlearned words are the entries of the corpus whose word is not learned. */
  lemma UnlearnedMembers(ws: seq<Word>, learned: set<string>)
    ensures forall w :: w in Unlearned(ws, learned) <==> w in ws && w.word !in learned
  {
    forall w ensures w in Unlearned(ws, learned) <==> w in ws && w.word !in learned {
      Seqs.FilterContains(ws, UnlearnedKeep(learned), w);
    }
  }

  function ListedKeep(listed: seq<string>): Word -> bool {
    (w: Word) => w.word in listed
  }

  /** The entries of `corpus` whose word is listed, in corpus order. */
  function Listed(corpus: seq<Word>, listed: seq<string>): (r: seq<Word>)
    ensures forall w :: w in r <==> w in corpus && w.word in listed
    ensures forall w :: multiset(r)[w] == if w.word in listed then multiset(corpus)[w] else 0
    ensures Seqs.IsSubsequence(r, corpus)
  {
    forall w ensures multiset(Seqs.Filter(corpus, ListedKeep(listed)))[w] == if w.word in listed then multiset(corpus)[w] else 0 {
      Seqs.FilterCount(corpus, ListedKeep(listed), w);
    }
    assert forall w :: w in Seqs.Filter(corpus, ListedKeep(listed)) <==> w in corpus && w.word in listed by {
      forall w ensures w in Seqs.Filter(corpus, ListedKeep(listed)) <==> w in corpus && w.word in listed {
        Seqs.FilterContains(corpus, ListedKeep(listed), w);
      }
    }
    Seqs.FilterIsSubsequence(corpus, ListedKeep(listed));
    Seqs.Filter(corpus, ListedKeep(listed))
  }

  /** The words a batch is cut from: the unlearned ones in unlearned mode, all of them otherwise. */
  function Source(all: seq<Word>, learned: set<string>, unlearnedMode: bool): seq<Word> {
    if unlearnedMode then Unlearned(all, learned) else all
  }

  /** Every corpus entry occurs in the source as often as in the corpus, except that unlearned mode
      drops the learned ones. */
  lemma SourceCounts(all: seq<Word>, learned: set<string>, unlearnedMode: bool)
    ensures forall w ::
      multiset(Source(all, learned, unlearnedMode))[w] == if unlearnedMode && w.word in learned then 0 else multiset(all)[w]
  {
    if unlearnedMode {
      forall w ensures multiset(Unlearned(all, learned))[w] == if w.word in learned then 0 else multiset(all)[w] {
        Seqs.FilterCount(all, UnlearnedKeep(learned), w);
      }
    }
  }

  /** How many words of `src` the first `batch` batches cover. */
  function Displayed(src: seq<Word>, batch: nat): (d: nat)
    ensures d <= |src| && d <= batch * BatchSize
    ensures d == |src| || d == batch * BatchSize
  {
    Seqs.Min(batch * BatchSize, |src|)
  }

  /** `Array(src[0..<endIndex])`: the first `batch` batches of `src`. */
  function Window(src: seq<Word>, batch: nat): (r: seq<Word>)
    ensures |r| == Displayed(src, batch)
    ensures forall i :: 0 <= i < |r| ==> r[i] == src[i]
    ensures batch >= 1 && src != [] ==> r != []
  {
    src[..Displayed(src, batch)]
  }

  /** `if currentIndex >= count { currentIndex = max(0, count - 1) }`: afterwards the index points at
      a card, or there is no card and it is 0. */
  function Clamp(index: nat, count: nat): (r: nat)
    ensures (count == 0 && r == 0) || r < count
    ensures index < count ==> r == index
    ensures count <= index ==> r + 1 == count || count == 0
  {
    if index >= count then (if count == 0 then 0 else count - 1) else index
  }

  // ----- The recently viewed list -----

  /** Swift's `firstIndex(of:)`. */
  function FirstIndexOf(s: seq<string>, x: string): (r: Option<nat>)
    ensures r.None? <==> x !in s
    ensures r.Some? ==> r.value < |s| && s[r.value] == x && x !in s[..r.value]
  {
    if s == [] then None
    else if s[0] == x then Some(0)
    else
      match FirstIndexOf(s[1..], x)
      case None => None
      case Some(i) =>
        assert s[..i + 1] == [s[0]] + s[1..][..i];
        Some(i + 1)
  }

  /** `displayCurrentCard`'s update of `recentlyViewedWords`: the word's first occurrence is
      removed and the word appended. */
  function Seen(recent: seq<string>, w: string): (r: seq<string>)
    ensures |r| > 0 && r[|r| - 1] == w
    ensures |r| <= |recent| + 1
  {
    match FirstIndexOf(recent, w)
    case None => recent + [w]
    case Some(i) => recent[..i] + recent[i + 1..] + [w]
  }

  /** The shown word becomes the last entry, no other word is added or lost, and a list without
      duplicates stays without duplicates. */
  lemma SeenMovesToEnd(recent: seq<string>, w: string)
    ensures var r := Seen(recent, w);
      |r| > 0 && r[|r| - 1] == w &&
      (forall x :: x in r <==> x in recent || x == w) &&
      |r| == (if w in recent then |recent| else |recent| + 1)
    ensures Seqs.NoDuplicates(recent) ==> Seqs.NoDuplicates(Seen(recent, w))
  {
    var r := Seen(recent, w);
    match FirstIndexOf(recent, w)
    case None =>
    case Some(i) =>
      var rest := recent[..i] + recent[i + 1..];
      assert recent == recent[..i] + [recent[i]] + recent[i + 1..];
      assert forall j :: 0 <= j < |rest| ==> rest[j] == recent[if j < i then j else j + 1];
      if Seqs.NoDuplicates(recent) {
        assert forall j :: 0 <= j < |rest| ==> rest[j] != w;
      }
  }

  // ----- The learned set -----

  /** `learnedButtonTapped`'s update: the word leaves the set if it was in it, and joins it otherwise. */
  function Toggle(learned: set<string>, w: string): (r: set<string>)
    ensures w in r <==> w !in learned
    ensures forall x :: x != w ==> (x in r <==> x in learned)
  {
    if w in learned then learned - {w} else learned + {w}
  }

  /** Tapping the heart twice restores the set. */
  lemma ToggleTwice(learned: set<string>, w: string)
    ensures Toggle(Toggle(learned, w), w) == learned
  {
    var once := Toggle(learned, w);
    var twice := Toggle(once, w);
    forall x ensures x in twice <==> x in learned {
      if x == w {
        assert x in twice <==> x !in once;
      }
    }
  }

  // ----- The merge in loadMoreWords -----

  /** The value of the closure's `index` counter before position `i`, had the fill no end: the
      number of unlearned words in front of `i`. */
  function UnlearnedBefore(all: seq<Word>, learned: set<string>, i: nat): nat
    requires i <= |all|
  {
    if i == 0 then 0
    else UnlearnedBefore(all, learned, i - 1) + (if all[i - 1].word in learned then 0 else 1)
  }

  /** What `allWords.map` puts at position `i`: a learned word stays, and the unlearned slots take
      the words of `fill` in order until it runs out. */
  function MergedAt(all: seq<Word>, learned: set<string>, fill: seq<Word>, i: nat): Word
    requires i < |all|
  {
    if all[i].word in learned then all[i]
    else
      var k := UnlearnedBefore(all, learned, i);
      if k < |fill| then fill[k] else all[i]
  }

  /** The array `allWords.map { ... }` builds. */
  function Merged(all: seq<Word>, learned: set<string>, fill: seq<Word>): (r: seq<Word>)
    ensures |r| == |all|
  {
    seq(|all|, i requires 0 <= i < |all| => MergedAt(all, learned, fill, i))
  }

  /** The map with its mutable `index` counter, written as the loop it is. */
  method MergeUnlearned(all: seq<Word>, learned: set<string>, fill: seq<Word>) returns (r: seq<Word>)
    ensures r == Merged(all, learned, fill)
  {
    r := [];
    var index := 0;
    for i := 0 to |all|
      invariant |r| == i
      invariant forall j :: 0 <= j < i ==> r[j] == MergedAt(all, learned, fill, j)
      invariant index == Seqs.Min(UnlearnedBefore(all, learned, i), |fill|)
    {
      var word := all[i];
      if word.word in learned {
        r := r + [word];
      } else if index < |fill| {
        r := r + [fill[index]];
        index := index + 1;
      } else {
        r := r + [word];
      }
    }
  }

  /** The counter counts the unlearned words of the prefix. */
  lemma {:induction false} UnlearnedBeforeCounts(all: seq<Word>, learned: set<string>, i: nat)
    requires i <= |all|
    ensures |Unlearned(all[..i], learned)| == UnlearnedBefore(all, learned, i)
  {
    if i == 0 {
      assert all[..0] == [];
    } else {
      var j := i - 1;
      UnlearnedBeforeCounts(all, learned, j);
      UnlearnedStep(all, learned, j);
      assert |Unlearned(all[..i], learned)| == |Unlearned(all[..j], learned)| + (if all[j].word in learned then 0 else 1);
    }
  }

  /** One more word of the corpus adds itself to the unlearned ones exactly when it is unlearned. */
  lemma UnlearnedStep(all: seq<Word>, learned: set<string>, i: nat)
    requires i < |all|
    ensures Unlearned(all[..i + 1], learned) ==
      Unlearned(all[..i], learned) + (if all[i].word in learned then [] else [all[i]])
  {
    assert all[..i + 1] == all[..i] + [all[i]];
    Seqs.FilterAppend(all[..i], [all[i]], UnlearnedKeep(learned));
    Seqs.FilterSingle(all[i], UnlearnedKeep(learned));
  }

  lemma LearnedStep(s: seq<Word>, learned: set<string>, i: nat)
    requires i < |s|
    ensures Seqs.Filter(s[..i + 1], LearnedKeep(learned)) ==
      Seqs.Filter(s[..i], LearnedKeep(learned)) + (if s[i].word in learned then [s[i]] else [])
  {
    assert s[..i + 1] == s[..i] + [s[i]];
    Seqs.FilterAppend(s[..i], [s[i]], LearnedKeep(learned));
    Seqs.FilterSingle(s[i], LearnedKeep(learned));
  }

  /** A prefix of the corpus has no more unlearned words than the whole. */
  lemma UnlearnedPrefix(all: seq<Word>, learned: set<string>, i: nat)
    requires i <= |all|
    ensures |Unlearned(all[..i], learned)| <= |Unlearned(all, learned)|
  {
    assert all == all[..i] + all[i..];
    Seqs.FilterAppend(all[..i], all[i..], UnlearnedKeep(learned));
  }

  lemma PrefixSnoc(s: seq<Word>, k: nat)
    requires k < |s|
    ensures s[..k + 1] == s[..k] + [s[k]]
  {
  }

  /** Up to position `i`, the merge has used the fill in order, one word per unlearned slot. */
  lemma {:induction false} MergeUsesFill(all: seq<Word>, learned: set<string>, fill: seq<Word>, i: nat)
    requires i <= |all|
    requires |fill| == |Unlearned(all, learned)|
    requires forall j :: 0 <= j < |fill| ==> fill[j].word !in learned
    ensures UnlearnedBefore(all, learned, i) <= |fill|
    ensures Unlearned(Merged(all, learned, fill)[..i], learned) == fill[..UnlearnedBefore(all, learned, i)]
  {
    var m := Merged(all, learned, fill);
    UnlearnedPrefix(all, learned, i);
    UnlearnedBeforeCounts(all, learned, i);
    if i == 0 {
      assert m[..0] == [];
    } else {
      var j := i - 1;
      MergeUsesFill(all, learned, fill, j);
      var k := UnlearnedBefore(all, learned, j);
      if all[j].word in learned {
        assert m[j] == all[j];
        UnlearnedStep(m, learned, j);
      } else {
        assert m[j] == fill[k];
        UnlearnedStep(m, learned, j);
        PrefixSnoc(fill, k);
      }
    }
  }

  /** Up to position `i`, the merge has the learned words of the corpus, in their order. */
  lemma {:induction false} MergeKeepsLearned(all: seq<Word>, learned: set<string>, fill: seq<Word>, i: nat)
    requires i <= |all|
    requires forall j :: 0 <= j < |fill| ==> fill[j].word !in learned
    ensures Seqs.Filter(Merged(all, learned, fill)[..i], LearnedKeep(learned)) == Seqs.Filter(all[..i], LearnedKeep(learned))
  {
    var m := Merged(all, learned, fill);
    if i == 0 {
      assert m[..0] == [] && all[..0] == [];
    } else {
      var j := i - 1;
      MergeKeepsLearned(all, learned, fill, j);
      LearnedStep(all, learned, j);
      LearnedStep(m, learned, j);
      assert m[j] == MergedAt(all, learned, fill, j);
    }
  }

  /** Each entry of the corpus is either learned or unlearned. */
  lemma SplitByLearned(s: seq<Word>, learned: set<string>)
    ensures multiset(s) == multiset(Seqs.Filter(s, LearnedKeep(learned))) + multiset(Unlearned(s, learned))
  {
    assert forall x :: UnlearnedKeep(learned)(x) == !LearnedKeep(learned)(x);
    Seqs.FilterSplit(s, LearnedKeep(learned), UnlearnedKeep(learned));
  }

  /** A rearrangement of the unlearned words has as many words, all of them unlearned. */
  lemma FillUnlearned(all: seq<Word>, learned: set<string>, fill: seq<Word>)
    requires multiset(fill) == multiset(Unlearned(all, learned))
    ensures |fill| == |Unlearned(all, learned)|
    ensures forall j :: 0 <= j < |fill| ==> fill[j].word !in learned
  {
    var u := Unlearned(all, learned);
    assert |fill| == |multiset(fill)| == |u|;
    UnlearnedMembers(all, learned);
    forall j | 0 <= j < |fill| ensures fill[j].word !in learned {
      assert fill[j] in multiset(u);
    }
  }

  /** When the fill is a rearrangement of the unlearned words, the merge is a rearrangement of the
      corpus whose unlearned words are exactly the fill, in order. */
  lemma MergePermutes(all: seq<Word>, learned: set<string>, fill: seq<Word>)
    requires multiset(fill) == multiset(Unlearned(all, learned))
    ensures Unlearned(Merged(all, learned, fill), learned) == fill
    ensures multiset(Merged(all, learned, fill)) == multiset(all)
  {
    var m := Merged(all, learned, fill);
    FillUnlearned(all, learned, fill);
    MergeUsesFill(all, learned, fill, |all|);
    MergeKeepsLearned(all, learned, fill, |all|);
    assert all[..|all|] == all;
    assert m[..|all|] == m;
    SplitByLearned(m, learned);
    SplitByLearned(all, learned);
  }

  /** The merge leaves every learned word where it was. */
  lemma MergeKeepsPositions(all: seq<Word>, learned: set<string>, fill: seq<Word>)
    ensures forall i :: 0 <= i < |all| && all[i].word in learned ==> Merged(all, learned, fill)[i] == all[i]
  {
  }

  /** The words after the first `batch` batches, which `loadMoreWords` shuffles. */
  function Remaining(src: seq<Word>, batch: nat): (r: seq<Word>)
    ensures Window(src, batch) + r == src
  {
    src[Displayed(src, batch)..]
  }

  /** `allWords` after `loadMoreWords`' reshuffle: in unlearned mode the displayed unlearned words
      followed by the shuffled rest are merged back around the learned words; in all-words mode the
      displayed prefix is kept and the shuffled rest follows it. */
  function Reshuffled(all: seq<Word>, learned: set<string>, unlearnedMode: bool, batch: nat, shuffledRemaining: seq<Word>): (r: seq<Word>)
    ensures unlearnedMode ==> |r| == |all| && forall i :: 0 <= i < |all| && all[i].word in learned ==> r[i] == all[i]
    ensures !unlearnedMode ==> Displayed(all, batch) <= |r| && r[..Displayed(all, batch)] == all[..Displayed(all, batch)]
  {
    if unlearnedMode then
      var u := Unlearned(all, learned);
      Merged(all, learned, u[..Displayed(u, batch)] + shuffledRemaining)
    else
      all[..Displayed(all, batch)] + shuffledRemaining
  }

  /** The reshuffle only reorders the corpus, learned words keep their positions (unlearned mode),
      and the cards already shown keep theirs: the old window is the start of the next one. */
  lemma ReshufflePreserves(all: seq<Word>, learned: set<string>, unlearnedMode: bool, batch: nat, shuffledRemaining: seq<Word>)
    requires multiset(shuffledRemaining) == multiset(Remaining(Source(all, learned, unlearnedMode), batch))
    ensures var r := Reshuffled(all, learned, unlearnedMode, batch, shuffledRemaining);
      var d := Displayed(Source(all, learned, unlearnedMode), batch);
      multiset(r) == multiset(all) && |r| == |all| &&
      (unlearnedMode ==> forall i :: 0 <= i < |all| && all[i].word in learned ==> r[i] == all[i]) &&
      d <= |Window(Source(r, learned, unlearnedMode), batch + 1)| &&
      Window(Source(r, learned, unlearnedMode), batch + 1)[..d] == Window(Source(all, learned, unlearnedMode), batch)
  {
    var src := Source(all, learned, unlearnedMode);
    var d := Displayed(src, batch);
    assert src == src[..d] + src[d..];
    var fill := src[..d] + shuffledRemaining;
    assert multiset(fill) == multiset(src);
    var r := Reshuffled(all, learned, unlearnedMode, batch, shuffledRemaining);
    if unlearnedMode {
      MergePermutes(all, learned, fill);
      MergeKeepsPositions(all, learned, fill);
      assert Source(r, learned, unlearnedMode) == fill;
    } else {
      assert Source(r, learned, unlearnedMode) == fill;
    }
    assert |multiset(fill)| == |multiset(src)|;
    assert fill[..d] == src[..d];
  }

  // ----- The quiz on recently viewed words -----

  datatype QuizStart =
    | NotEnoughWords(viewed: nat)
    | LoadFailed
    | Start(quizWords: seq<string>, words: seq<Word>)

  /** `recentlyViewedWords.suffix(min(10, count))`: the latest viewed words, at most ten. */
  function LatestViewed(recent: seq<string>): (r: seq<string>)
    ensures |r| == Seqs.Min(MaxQuizWords, |recent|)
    ensures recent == recent[..|recent| - |r|] + r
  {
    recent[|recent| - Seqs.Min(MaxQuizWords, |recent|)..]
  }

  /** `takeQuizButtonTapped`: fewer than five viewed words give an alert, so does a corpus that does
      not load; otherwise the quiz asks the corpus entries of the latest viewed words. */
  function TakeQuiz(recent: seq<string>, loaded: Option<seq<Word>>): (r: QuizStart)
    ensures r.NotEnoughWords? <==> |recent| < MinQuizWords
    ensures r.NotEnoughWords? ==> r.viewed == |recent|
    ensures r.LoadFailed? <==> |recent| >= MinQuizWords && loaded.None?
    ensures r.Start? ==>
      MinQuizWords <= |r.quizWords| <= MaxQuizWords && r.quizWords == LatestViewed(recent) &&
      Seqs.IsSubsequence(r.words, loaded.value) &&
      (forall w :: w in r.words <==> w in loaded.value && w.word in r.quizWords) &&
      forall w :: multiset(r.words)[w] == if w.word in r.quizWords then multiset(loaded.value)[w] else 0
  {
    if |recent| < MinQuizWords then NotEnoughWords(|recent|)
    else if loaded.None? then LoadFailed
    else
      var quizWords := LatestViewed(recent);
      Start(quizWords, Listed(loaded.value, quizWords))
  }

  /** What `learnedButtonTapped` schedules for half a second later. */
  datatype FollowUp = NoFollowUp | PreviousCard | NextCard | Refilter

  /** The card at `index` was shown: its word is viewed and moves to the end of the recent list. */
  predicate ShowsCard(display: seq<Word>, index: nat, viewed0: set<string>, recent0: seq<string>,
                      viewed: set<string>, recent: seq<string>)
  {
    if index < |display| then
      viewed == viewed0 + {display[index].word} && recent == Seen(recent0, display[index].word)
    else
      viewed == viewed0 && recent == recent0
  }

  class FlashCardViewController {
    var allWords: seq<Word>
    var displayWords: seq<Word>
    var currentIndex: nat
    var learnedWords: set<string>
    var viewedWords: set<string>
    var recentlyViewedWords: seq<string>
    var isUnlearnedMode: bool
    var currentBatch: nat

    /** There is a first batch, and the index points at a card unless there is none. */
    predicate Valid()
      reads this
    {
      currentBatch >= 1 &&
      ((displayWords == [] && currentIndex == 0) || currentIndex < |displayWords|)
    }

    /** `viewDidLoad`: the learned and viewed words come from storage; `loadWords` takes the corpus
        (only the listed words when there are words to learn), shuffles it and shows the first
        batch. A corpus that does not load leaves the screen empty. */
    constructor (loaded: Option<seq<Word>>, wordsToLearn: seq<string>, shuffled: seq<Word>,
                 learned: set<string>, viewed: set<string>, recent: seq<string>)
      requires loaded.Some? ==>
        multiset(shuffled) == multiset(if wordsToLearn == [] then loaded.value else Listed(loaded.value, wordsToLearn))
      ensures Valid() && isUnlearnedMode && currentBatch == 1 && learnedWords == learned
      ensures loaded.None? ==>
        allWords == [] && displayWords == [] && currentIndex == 0 &&
        viewedWords == viewed && recentlyViewedWords == recent
      ensures loaded.Some? ==>
        allWords == shuffled && displayWords == Window(Unlearned(shuffled, learned), 1) && currentIndex == 0 &&
        ShowsCard(displayWords, 0, viewed, recent, viewedWords, recentlyViewedWords)
    {
      allWords := [];
      displayWords := [];
      currentIndex := 0;
      learnedWords := learned;
      viewedWords := viewed;
      recentlyViewedWords := recent;
      isUnlearnedMode := true;
      currentBatch := 1;
      new;
      if loaded.Some? {
        allWords := shuffled;
        FilterAndDisplayWords();
      }
    }

    /** `shouldLoadMoreWords`: true exactly when the batches shown so far leave words of the source
        out. */
    function ShouldLoadMoreWords(): (r: bool)
      reads this
      ensures r <==> |Window(Source(allWords, learnedWords, isUnlearnedMode), currentBatch)| <
                     |Source(allWords, learnedWords, isUnlearnedMode)|
    {
      currentBatch * BatchSize < |Source(allWords, learnedWords, isUnlearnedMode)|
    }

    /** `displayCurrentCard`: the current card, if any, is marked viewed and moved to the end of the
        recent list. */
    method DisplayCurrentCard()
      modifies this
      ensures ShowsCard(displayWords, currentIndex, old(viewedWords), old(recentlyViewedWords), viewedWords, recentlyViewedWords)
      ensures allWords == old(allWords) && displayWords == old(displayWords) && currentIndex == old(currentIndex)
      ensures learnedWords == old(learnedWords) && isUnlearnedMode == old(isUnlearnedMode) && currentBatch == old(currentBatch)
    {
      if displayWords == [] || currentIndex >= |displayWords| {
        return;
      }
      var currentWord := displayWords[currentIndex];
      viewedWords := viewedWords + {currentWord.word};
      var existingIndex := FirstIndexOf(recentlyViewedWords, currentWord.word);
      if existingIndex.Some? {
        var i := existingIndex.value;
        recentlyViewedWords := recentlyViewedWords[..i] + recentlyViewedWords[i + 1..];
      }
      recentlyViewedWords := recentlyViewedWords + [currentWord.word];
    }

    /** `filterAndDisplayWords`: the first `currentBatch` batches of the source, the index clamped to
        them, and the current card shown. */
    method FilterAndDisplayWords()
      requires currentBatch >= 1
      modifies this
      ensures Valid()
      ensures displayWords == Window(Source(allWords, learnedWords, isUnlearnedMode), currentBatch)
      ensures currentIndex == Clamp(old(currentIndex), |displayWords|)
      ensures ShowsCard(displayWords, currentIndex, old(viewedWords), old(recentlyViewedWords), viewedWords, recentlyViewedWords)
      ensures allWords == old(allWords) && learnedWords == old(learnedWords)
      ensures isUnlearnedMode == old(isUnlearnedMode) && currentBatch == old(currentBatch)
    {
      if isUnlearnedMode {
        var unlearnedWords := Unlearned(allWords, learnedWords);
        var endIndex := Seqs.Min(currentBatch * BatchSize, |unlearnedWords|);
        displayWords := unlearnedWords[..endIndex];
      } else {
        var endIndex := Seqs.Min(currentBatch * BatchSize, |allWords|);
        displayWords := allWords[..endIndex];
      }
      if currentIndex >= |displayWords| {
        currentIndex := if |displayWords| == 0 then 0 else |displayWords| - 1;
      }
      DisplayCurrentCard();
    }

    /** `loadMoreWords`: one more batch. Past the middle of the shown cards the words not yet shown
        are reshuffled first. `moveOn` says whether the next card is scheduled: the index was on the
        last card of the old window and the window grew. */
    method LoadMoreWords(shuffledRemaining: seq<Word>) returns (moveOn: bool)
      requires Valid()
      requires currentIndex > |displayWords| / 2 ==>
        multiset(shuffledRemaining) == multiset(Remaining(Source(allWords, learnedWords, isUnlearnedMode), currentBatch))
      modifies this
      ensures Valid() && currentBatch == old(currentBatch) + 1
      ensures allWords ==
        if old(currentIndex) > old(|displayWords|) / 2
        then Reshuffled(old(allWords), learnedWords, isUnlearnedMode, old(currentBatch), shuffledRemaining)
        else old(allWords)
      ensures multiset(allWords) == multiset(old(allWords))
      ensures displayWords == Window(Source(allWords, learnedWords, isUnlearnedMode), currentBatch)
      ensures currentIndex == Clamp(old(currentIndex), |displayWords|)
      ensures ShowsCard(displayWords, currentIndex, old(viewedWords), old(recentlyViewedWords), viewedWords, recentlyViewedWords)
      ensures learnedWords == old(learnedWords) && isUnlearnedMode == old(isUnlearnedMode)
      ensures moveOn <==> currentIndex + 1 == old(|displayWords|) && old(|displayWords|) < |displayWords|
    {
      var oldCount := |displayWords|;
      if currentIndex > oldCount / 2 {
        ReshuffleRemaining(shuffledRemaining);
      }
      currentBatch := currentBatch + 1;
      FilterAndDisplayWords();
      moveOn := currentIndex == oldCount - 1 && oldCount < |displayWords|;
    }

    /** The reshuffle inside `loadMoreWords` (its condition `currentBatch > 1` always holds once the
        batch is incremented): the words of the source not yet shown are replaced by their shuffle. */
    method ReshuffleRemaining(shuffledRemaining: seq<Word>)
      requires multiset(shuffledRemaining) == multiset(Remaining(Source(allWords, learnedWords, isUnlearnedMode), currentBatch))
      modifies this
      ensures allWords == Reshuffled(old(allWords), learnedWords, isUnlearnedMode, currentBatch, shuffledRemaining)
      ensures multiset(allWords) == multiset(old(allWords))
      ensures displayWords == old(displayWords) && currentIndex == old(currentIndex) && learnedWords == old(learnedWords)
      ensures viewedWords == old(viewedWords) && recentlyViewedWords == old(recentlyViewedWords)
      ensures isUnlearnedMode == old(isUnlearnedMode) && currentBatch == old(currentBatch)
    {
      ReshufflePreserves(allWords, learnedWords, isUnlearnedMode, currentBatch, shuffledRemaining);
      if isUnlearnedMode {
        var unlearnedWords := Unlearned(allWords, learnedWords);
        var displayedCount := Seqs.Min(currentBatch * BatchSize, |unlearnedWords|);
        var newUnlearnedWords := unlearnedWords[..displayedCount] + shuffledRemaining;
        allWords := MergeUnlearned(allWords, learnedWords, newUnlearnedWords);
      } else {
        var displayedCount := Seqs.Min(currentBatch * BatchSize, |allWords|);
        allWords := allWords[..displayedCount] + shuffledRemaining;
      }
    }

    /** `nextButtonTapped`: the next card, or at the last card one more batch when there is one. */
    method NextButtonTapped(shuffledRemaining: seq<Word>) returns (moveOn: bool)
      requires Valid()
      requires currentIndex > |displayWords| / 2 ==>
        multiset(shuffledRemaining) == multiset(Remaining(Source(allWords, learnedWords, isUnlearnedMode), currentBatch))
      modifies this
      ensures Valid() && multiset(allWords) == multiset(old(allWords))
      ensures learnedWords == old(learnedWords) && isUnlearnedMode == old(isUnlearnedMode)
      ensures old(currentIndex) + 1 < old(|displayWords|) ==>
        currentIndex == old(currentIndex) + 1 && displayWords == old(displayWords) && currentBatch == old(currentBatch) &&
        allWords == old(allWords) && !moveOn &&
        ShowsCard(displayWords, currentIndex, old(viewedWords), old(recentlyViewedWords), viewedWords, recentlyViewedWords)
      ensures old(currentIndex) + 1 >= old(|displayWords|) && !old(ShouldLoadMoreWords()) ==>
        currentIndex == old(currentIndex) && displayWords == old(displayWords) && currentBatch == old(currentBatch) &&
        allWords == old(allWords) && viewedWords == old(viewedWords) && recentlyViewedWords == old(recentlyViewedWords) && !moveOn
      ensures old(currentIndex) + 1 >= old(|displayWords|) && old(ShouldLoadMoreWords()) ==>
        currentBatch == old(currentBatch) + 1 &&
        allWords == (if old(currentIndex) > old(|displayWords|) / 2
                     then Reshuffled(old(allWords), learnedWords, isUnlearnedMode, old(currentBatch), shuffledRemaining)
                     else old(allWords)) &&
        displayWords == Window(Source(allWords, learnedWords, isUnlearnedMode), currentBatch) &&
        currentIndex == Clamp(old(currentIndex), |displayWords|) &&
        ShowsCard(displayWords, currentIndex, old(viewedWords), old(recentlyViewedWords), viewedWords, recentlyViewedWords) &&
        (moveOn <==> currentIndex + 1 == old(|displayWords|) && old(|displayWords|) < |displayWords|)
    {
      moveOn := false;
      if !(currentIndex < |displayWords| - 1) {
        if ShouldLoadMoreWords() {
          moveOn := LoadMoreWords(shuffledRemaining);
        }
        return;
      }
      currentIndex := currentIndex + 1;
      DisplayCurrentCard();
    }

    /** `prevButtonTapped`: the previous card, unless this is the first. */
    method PrevButtonTapped()
      requires Valid()
      modifies this
      ensures Valid()
      ensures currentIndex == if old(currentIndex) > 0 then old(currentIndex) - 1 else old(currentIndex)
      ensures old(currentIndex) > 0 ==>
        ShowsCard(displayWords, currentIndex, old(viewedWords), old(recentlyViewedWords), viewedWords, recentlyViewedWords)
      ensures old(currentIndex) == 0 ==> viewedWords == old(viewedWords) && recentlyViewedWords == old(recentlyViewedWords)
      ensures allWords == old(allWords) && displayWords == old(displayWords) && learnedWords == old(learnedWords)
      ensures isUnlearnedMode == old(isUnlearnedMode) && currentBatch == old(currentBatch)
    {
      if currentIndex == 0 {
        return;
      }
      currentIndex := currentIndex - 1;
      DisplayCurrentCard();
    }

    /** `learnedButtonTapped`: toggles the current word in the learned set and shows the card again.
        A word just learned in unlearned mode schedules a move: back from the last card, on from any
        other, a refilter when it was the only card. */
    method LearnedButtonTapped() returns (followUp: FollowUp)
      requires Valid()
      modifies this
      ensures Valid()
      ensures old(displayWords) == [] ==>
        learnedWords == old(learnedWords) && viewedWords == old(viewedWords) &&
        recentlyViewedWords == old(recentlyViewedWords) && followUp == NoFollowUp
      ensures old(displayWords) != [] ==>
        var w := old(displayWords[currentIndex].word);
        learnedWords == Toggle(old(learnedWords), w) &&
        ShowsCard(displayWords, currentIndex, old(viewedWords), old(recentlyViewedWords), viewedWords, recentlyViewedWords) &&
        (followUp != NoFollowUp <==> isUnlearnedMode && w in learnedWords) &&
        (followUp == PreviousCard ==> currentIndex + 1 == |displayWords| && currentIndex > 0) &&
        (followUp == NextCard ==> currentIndex + 1 < |displayWords|) &&
        (followUp == Refilter ==> |displayWords| == 1)
      ensures allWords == old(allWords) && displayWords == old(displayWords) && currentIndex == old(currentIndex)
      ensures isUnlearnedMode == old(isUnlearnedMode) && currentBatch == old(currentBatch)
    {
      followUp := NoFollowUp;
      if displayWords == [] || currentIndex >= |displayWords| {
        return;
      }
      var currentWord := displayWords[currentIndex].word;
      if currentWord in learnedWords {
        learnedWords := learnedWords - {currentWord};
      } else {
        learnedWords := learnedWords + {currentWord};
      }
      DisplayCurrentCard();
      if isUnlearnedMode && currentWord in learnedWords {
        if currentIndex == |displayWords| - 1 && currentIndex > 0 {
          followUp := PreviousCard;
        } else if currentIndex < |displayWords| - 1 {
          followUp := NextCard;
        } else {
          followUp := Refilter;
        }
      }
    }

    /** `modeChanged`: the chosen mode, the first batch of a reshuffled corpus and its first card. */
    method ModeChanged(unlearnedMode: bool, shuffled: seq<Word>)
      requires Valid() && multiset(shuffled) == multiset(allWords)
      modifies this
      ensures Valid() && isUnlearnedMode == unlearnedMode && currentBatch == 1 && currentIndex == 0
      ensures allWords == shuffled && learnedWords == old(learnedWords)
      ensures displayWords == Window(Source(shuffled, learnedWords, unlearnedMode), 1)
      ensures ShowsCard(displayWords, 0, old(viewedWords), old(recentlyViewedWords), viewedWords, recentlyViewedWords)
    {
      isUnlearnedMode := unlearnedMode;
      currentBatch := 1;
      currentIndex := 0;
      allWords := shuffled;
      FilterAndDisplayWords();
    }

    /** `restartButtonTapped`: the first batch of a reshuffled corpus and its first card, in the
        same mode. */
    method RestartButtonTapped(shuffled: seq<Word>)
      requires Valid() && multiset(shuffled) == multiset(allWords)
      modifies this
      ensures Valid() && currentBatch == 1 && currentIndex == 0
      ensures allWords == shuffled && learnedWords == old(learnedWords) && isUnlearnedMode == old(isUnlearnedMode)
      ensures displayWords == Window(Source(shuffled, learnedWords, isUnlearnedMode), 1)
      ensures ShowsCard(displayWords, 0, old(viewedWords), old(recentlyViewedWords), viewedWords, recentlyViewedWords)
    {
      allWords := shuffled;
      currentBatch := 1;
      currentIndex := 0;
      FilterAndDisplayWords();
    }
  }
}
