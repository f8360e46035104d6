/** The mastery tracker of the personalised quiz (WordModel.swift, `PersonalizedQuizService`).

    Two dictionaries are kept per word: `wrongWords` holds the current streak of correct answers
    of each word still in practice, `wrongCountTracker` the lifetime number of wrong answers of
    each word ever answered wrongly. The value-level functions below give the meaning of each
    operation; the class `PersonalizedQuizService` updates its two fields in place and is proved
    against them. */
module Mastery {
  import opened Wrappers
  import Seqs

  /** A word leaves practice when its streak reaches this value. */
  const MasteryStreak := 3

  /** `hasEnoughWordsForPersonalizedQuiz` asks for this many words in practice. */
  const QuizThreshold := 5

  datatype Tracker = Tracker(wrongWords: map<string, int>, wrongCountTracker: map<string, int>)

  const Empty := Tracker(map[], map[])

  /** The invariant every operation keeps: streaks in 0..2, every word in practice has a history,
      every recorded history has at least one wrong answer. */
  predicate Valid(t: Tracker) {
    (forall w :: w in t.wrongWords ==> 0 <= t.wrongWords[w] < MasteryStreak) &&
    (forall w :: w in t.wrongWords ==> w in t.wrongCountTracker) &&
    (forall w :: w in t.wrongCountTracker ==> t.wrongCountTracker[w] >= 1)
  }

  predicate IsActive(t: Tracker, w: string) {
    w in t.wrongWords
  }

  /** `getStreakForWord`: the streak, 0 for a word not in practice. */
  function Streak(t: Tracker, w: string): (r: int)
    ensures !IsActive(t, w) ==> r == 0
    ensures Valid(t) ==> 0 <= r < MasteryStreak
  {
    if w in t.wrongWords then t.wrongWords[w] else 0
  }

  /** `getWrongCountForWord`: the lifetime wrong count, 0 for a word never answered wrongly. */
  function WrongCount(t: Tracker, w: string): (r: int)
    ensures w !in t.wrongCountTracker ==> r == 0
    ensures Valid(t) && IsActive(t, w) ==> r >= 1
  {
    if w in t.wrongCountTracker then t.wrongCountTracker[w] else 0
  }

  /** `x` has the same record in `t` and `r`: membership in both maps and both values. */
  predicate SameRecord(t: Tracker, r: Tracker, x: string) {
    (x in t.wrongWords <==> x in r.wrongWords) && Streak(t, x) == Streak(r, x) &&
    (x in t.wrongCountTracker <==> x in r.wrongCountTracker) && WrongCount(t, x) == WrongCount(r, x)
  }

  /** No history is lost and no count goes down from `t` to `r`. */
  predicate HistoryGrows(t: Tracker, r: Tracker) {
    forall w :: w in t.wrongCountTracker ==>
      w in r.wrongCountTracker && r.wrongCountTracker[w] >= t.wrongCountTracker[w]
  }

  /** `markWordAsWrong`: the streak becomes 0 (the word enters practice if it was not in it) and
      the lifetime count goes up by one; no other word is touched. */
  function MarkWrong(t: Tracker, w: string): (r: Tracker)
    ensures IsActive(r, w) && Streak(r, w) == 0
    ensures w in r.wrongCountTracker && WrongCount(r, w) == WrongCount(t, w) + 1
    ensures forall x :: x != w ==> SameRecord(t, r, x)
  {
    Tracker(t.wrongWords[w := 0], t.wrongCountTracker[w := WrongCount(t, w) + 1])
  }

  /** `markWordAsCorrect`: nothing for a word not in practice; otherwise the streak goes up, and a
      word whose streak reaches 3 leaves practice while its lifetime count stays. */
  function MarkCorrect(t: Tracker, w: string): (r: Tracker)
    ensures !IsActive(t, w) ==> r == t
    ensures r.wrongCountTracker == t.wrongCountTracker
    ensures IsActive(t, w) && Streak(t, w) + 1 >= MasteryStreak ==> !IsActive(r, w)
    ensures IsActive(t, w) && Streak(t, w) + 1 < MasteryStreak ==> IsActive(r, w) && Streak(r, w) == Streak(t, w) + 1
    ensures forall x :: x != w ==> SameRecord(t, r, x)
  {
    if w !in t.wrongWords then t
    else
      var newStreak := t.wrongWords[w] + 1;
      if newStreak >= MasteryStreak then t.(wrongWords := t.wrongWords - {w})
      else t.(wrongWords := t.wrongWords[w := newStreak])
  }

  /** `resetWordStreak`: written out separately in the source, with exactly the effect of
      `markWordAsWrong`. */
  function ResetStreak(t: Tracker, w: string): (r: Tracker)
    ensures r == MarkWrong(t, w)
  {
    Tracker(t.wrongWords[w := 0],
            t.wrongCountTracker[w := (if w in t.wrongCountTracker then t.wrongCountTracker[w] else 0) + 1])
  }

  /** `addWordBackToPractice`: only a word with a history re-enters practice, with streak 0 and its
      lifetime count unchanged. */
  function AddBack(t: Tracker, w: string): (r: Tracker)
    ensures w !in t.wrongCountTracker ==> r == t
    ensures w in t.wrongCountTracker ==> IsActive(r, w) && Streak(r, w) == 0
    ensures r.wrongCountTracker == t.wrongCountTracker
    ensures forall x :: x != w ==> SameRecord(t, r, x)
  {
    if w in t.wrongCountTracker then t.(wrongWords := t.wrongWords[w := 0]) else t
  }

  /** `hasEnoughWordsForPersonalizedQuiz`. */
  function HasEnoughWords(t: Tracker): (r: bool)
    ensures r <==> |t.wrongWords.Keys| >= QuizThreshold
  {
    |t.wrongWords| >= QuizThreshold
  }

  // ---------------------------------------------------------------------------------------------
  // The per-word state machine

  /** Where a word stands: never wrong, in practice with a streak, or mastered (history only). */
  datatype Phase = Unseen | Active(streak: int) | Mastered

  /** The events the quiz screens send to the tracker. */
  datatype Event = Wrong | Correct | Reset | Reactivate

  function PhaseOf(t: Tracker, w: string): Phase {
    if w in t.wrongWords then Active(t.wrongWords[w])
    else if w in t.wrongCountTracker then Mastered
    else Unseen
  }

  /** The tracker's state machine, written independently of the maps:
      Unseen -wrong-> Active(0) -correct-> Active(1) -correct-> Active(2) -correct-> Mastered;
      a wrong answer or reset always leads to Active(0); only reactivation leaves Mastered. */
  function NextPhase(p: Phase, e: Event): (r: Phase)
    ensures (p.Active? ==> 0 <= p.streak < MasteryStreak) ==> (r.Active? ==> 0 <= r.streak < MasteryStreak)
    ensures r == Unseen ==> p == Unseen
    ensures e == Correct && p.Active? && p.streak == MasteryStreak - 1 ==> r == Mastered
  {
    match e
    case Wrong => Active(0)
    case Reset => Active(0)
    case Correct =>
      (match p
       case Active(k) => if k + 1 >= MasteryStreak then Mastered else Active(k + 1)
       case _ => p)
    case Reactivate => if p == Unseen then Unseen else Active(0)
  }

  function Apply(t: Tracker, e: Event, w: string): Tracker {
    match e
    case Wrong => MarkWrong(t, w)
    case Correct => MarkCorrect(t, w)
    case Reset => ResetStreak(t, w)
    case Reactivate => AddBack(t, w)
  }

  /** Every operation moves the word it names exactly as the state machine says, leaves every
      other word where it was, keeps the invariant and loses no history. */
  lemma StepFollowsStateMachine(t: Tracker, e: Event, w: string)
    requires Valid(t)
    ensures PhaseOf(Apply(t, e, w), w) == NextPhase(PhaseOf(t, w), e)
    ensures forall x :: x != w ==> PhaseOf(Apply(t, e, w), x) == PhaseOf(t, x)
    ensures Valid(Apply(t, e, w))
    ensures HistoryGrows(t, Apply(t, e, w))
  {
    var r := Apply(t, e, w);
    forall x | x != w ensures PhaseOf(r, x) == PhaseOf(t, x) {
      assert SameRecord(t, r, x);
    }
  }

  /** A history of answers, each naming an event and the word it is about. */
  function ApplyAll(t: Tracker, events: seq<(Event, string)>): Tracker
    decreases |events|
  {
    if events == [] then t else ApplyAll(Apply(t, events[0].0, events[0].1), events[1..])
  }

  /** Over any sequence of operations the invariant holds throughout and lifetime counts never
      decrease (so they survive mastery). */
  lemma {:induction false} InvariantOverHistory(t: Tracker, events: seq<(Event, string)>)
    requires Valid(t)
    ensures Valid(ApplyAll(t, events))
    ensures HistoryGrows(t, ApplyAll(t, events))
    decreases |events|
  {
    if events != [] {
      var next := Apply(t, events[0].0, events[0].1);
      StepFollowsStateMachine(t, events[0].0, events[0].1);
      InvariantOverHistory(next, events[1..]);
    }
  }

  /** A wrong answer and three correct ones master a word, its count keeps the wrong answer, and a
      fourth correct answer changes nothing. */
  lemma ThreeCorrectAnswersMaster(t: Tracker, w: string)
    ensures var m := MarkCorrect(MarkCorrect(MarkCorrect(MarkWrong(t, w), w), w), w);
      PhaseOf(m, w) == Mastered && WrongCount(m, w) == WrongCount(t, w) + 1 &&
      MarkCorrect(m, w) == m
  {
    var a := MarkWrong(t, w);
    var b := MarkCorrect(a, w);
    var c := MarkCorrect(b, w);
    assert Streak(c, w) == 2;
  }

  /** The worked example: "lucid" answered wrongly once, then correctly three times. */
  lemma LucidExample()
    ensures var a := MarkWrong(Empty, "lucid");
      Streak(a, "lucid") == 0 && WrongCount(a, "lucid") == 1 &&
      var c := MarkCorrect(MarkCorrect(a, "lucid"), "lucid");
      Streak(c, "lucid") == 2 && IsActive(c, "lucid") &&
      var d := MarkCorrect(c, "lucid");
      !IsActive(d, "lucid") && WrongCount(d, "lucid") == 1
  {
    var a := MarkWrong(Empty, "lucid");
    var b := MarkCorrect(a, "lucid");
    assert Streak(b, "lucid") == 1;
  }

  // ---------------------------------------------------------------------------------------------
  // The list queries

  /** One row of `getAllWrongWordsWithCounts` / `getWordsCurrentlyInPractice`. */
  datatype Entry = Entry(word: string, wrongCount: int, streak: int)

  /** The row a word gets: its lifetime count and its streak, each defaulting to 0. */
  function EntryFor(t: Tracker, w: string): Entry {
    Entry(w, WrongCount(t, w), Streak(t, w))
  }

  predicate SortedByCount(s: seq<Entry>) {
    forall i, j :: 0 <= i < j < |s| ==> s[i].wrongCount >= s[j].wrongCount
  }

  predicate DistinctWords(s: seq<Entry>) {
    forall i, j :: 0 <= i < j < |s| ==> s[i].word != s[j].word
  }

  function WordsOf(s: seq<Entry>): set<string> {
    set i | 0 <= i < |s| :: s[i].word
  }

  /** A row no smaller than every row of a sorted list can head it. */
  lemma SortedCons(x: Entry, t: seq<Entry>)
    requires SortedByCount(t)
    requires forall i :: 0 <= i < |t| ==> t[i].wrongCount <= x.wrongCount
    ensures SortedByCount([x] + t)
  {
    var r := [x] + t;
    forall i, j | 0 <= i < j < |r| ensures r[i].wrongCount >= r[j].wrongCount {
      assert r[j] == t[j - 1];
      if i > 0 {
        assert r[i] == t[i - 1];
      }
    }
  }

  /** The rows of a list that holds the rows of `t` and `e` are no larger than a bound on both. */
  lemma BoundedRows(r: seq<Entry>, t: seq<Entry>, e: Entry, bound: int)
    requires multiset(r) == multiset(t) + multiset{e}
    requires e.wrongCount <= bound && forall i :: 0 <= i < |t| ==> t[i].wrongCount <= bound
    ensures forall i :: 0 <= i < |r| ==> r[i].wrongCount <= bound
  {
    forall i | 0 <= i < |r| ensures r[i].wrongCount <= bound {
      assert r[i] in multiset(t) + multiset{e};
      if r[i] != e {
        assert r[i] in t;
      }
    }
  }

  /** Puts `e` into a list sorted by non-increasing count. */
  function Insert(e: Entry, s: seq<Entry>): (r: seq<Entry>)
    requires SortedByCount(s)
    ensures SortedByCount(r)
    ensures multiset(r) == multiset(s) + multiset{e}
  {
    if s == [] then [e]
    else if e.wrongCount >= s[0].wrongCount then
      SortedCons(e, s);
      assert multiset([e] + s) == multiset{e} + multiset(s);
      [e] + s
    else
      var rest := Insert(e, s[1..]);
      assert s == [s[0]] + s[1..];
      BoundedRows(rest, s[1..], e, s[0].wrongCount);
      SortedCons(s[0], rest);
      assert multiset([s[0]] + rest) == multiset{s[0]} + multiset(rest);
      assert multiset(s) == multiset{s[0]} + multiset(s[1..]);
      [s[0]] + rest
  }

  /** The library sort `sorted { $0.wrongCount > $1.wrongCount }`: non-increasing count, same rows.
      Swift's sort is not stable, so the order of equal counts is left open. */
  function SortByCount(s: seq<Entry>): (r: seq<Entry>)
    ensures SortedByCount(r)
    ensures multiset(r) == multiset(s)
  {
    if s == [] then []
    else
      assert s == [s[0]] + s[1..];
      Insert(s[0], SortByCount(s[1..]))
  }

  /** Appending a row with a new word keeps the words distinct and adds that word. */
  lemma AppendRow(list: seq<Entry>, e: Entry)
    requires DistinctWords(list) && e.word !in WordsOf(list)
    ensures DistinctWords(list + [e])
    ensures WordsOf(list + [e]) == WordsOf(list) + {e.word}
  {
    var l := list + [e];
    assert forall i :: 0 <= i < |list| ==> l[i] == list[i];
    assert l[|list|] == e;
    forall i | 0 <= i < |list| ensures list[i].word in WordsOf(list) { }
  }

  /** Two positions holding the same row make it occur twice. */
  lemma TwiceInMultiset(r: seq<Entry>, i: nat, j: nat)
    requires i < j < |r| && r[i] == r[j]
    ensures multiset(r)[r[i]] >= 2
  {
    assert r == r[..j] + [r[j]] + r[j + 1..];
    assert r[i] in r[..j];
  }

  /** A list with distinct words holds each row once. */
  lemma {:induction false} OnceInMultiset(s: seq<Entry>, x: Entry)
    requires DistinctWords(s)
    ensures multiset(s)[x] <= 1
  {
    if s != [] {
      assert s == [s[0]] + s[1..];
      OnceInMultiset(s[1..], x);
      if x == s[0] {
        assert x !in s[1..];
      }
    }
  }

  /** A rearrangement of rows with distinct words has the same words, once each. */
  lemma SortKeepsRows(list: seq<Entry>, r: seq<Entry>)
    requires multiset(r) == multiset(list)
    requires DistinctWords(list)
    ensures |r| == |list| && DistinctWords(r)
    ensures WordsOf(r) == WordsOf(list)
    ensures forall i :: 0 <= i < |r| ==> r[i] in list
  {
    assert |multiset(r)| == |multiset(list)|;
    forall i | 0 <= i < |r| ensures r[i] in list {
      assert r[i] in multiset(r);
    }
    forall w | w in WordsOf(list) ensures w in WordsOf(r) {
      var j :| 0 <= j < |list| && list[j].word == w;
      assert list[j] in multiset(list);
      var i :| 0 <= i < |r| && r[i] == list[j];
    }
    forall i, j | 0 <= i < j < |r| ensures r[i].word != r[j].word {
      if r[i].word == r[j].word {
        var a :| 0 <= a < |list| && list[a] == r[i];
        var b :| 0 <= b < |list| && list[b] == r[j];
        assert a == b;
        TwiceInMultiset(r, i, j);
        OnceInMultiset(list, r[i]);
      }
    }
  }

  // ---------------------------------------------------------------------------------------------
  // The service object

  class PersonalizedQuizService {
    var wrongWords: map<string, int>
    var wrongCountTracker: map<string, int>

    function State(): Tracker
      reads this
    {
      Tracker(wrongWords, wrongCountTracker)
    }

    /** `init` restores both maps from storage: each one that was saved and decodes is taken as it
        is (nothing checks it against `Valid`), any other starts empty. */
    constructor (savedWrongWords: Option<map<string, int>>, savedWrongCounts: Option<map<string, int>>)
      ensures wrongWords == if savedWrongWords.Some? then savedWrongWords.value else map[]
      ensures wrongCountTracker == if savedWrongCounts.Some? then savedWrongCounts.value else map[]
      ensures savedWrongWords.None? && savedWrongCounts.None? ==> State() == Empty
    {
      wrongWords := map[];
      wrongCountTracker := map[];
      if savedWrongWords.Some? {
        wrongWords := savedWrongWords.value;
      }
      if savedWrongCounts.Some? {
        wrongCountTracker := savedWrongCounts.value;
      }
    }

    method MarkWordAsWrong(word: string)
      modifies this
      ensures State() == MarkWrong(old(State()), word)
    {
      wrongWords := wrongWords[word := 0];
      var count := if word in wrongCountTracker then wrongCountTracker[word] else 0;
      wrongCountTracker := wrongCountTracker[word := count + 1];
    }

    method MarkWordAsCorrect(word: string)
      modifies this
      ensures State() == MarkCorrect(old(State()), word)
    {
      if word !in wrongWords {
        return;
      }
      var newStreak := wrongWords[word] + 1;
      if newStreak >= MasteryStreak {
        wrongWords := wrongWords - {word};
      } else {
        wrongWords := wrongWords[word := newStreak];
      }
    }

    method ResetWordStreak(word: string)
      modifies this
      ensures State() == ResetStreak(old(State()), word)
    {
      wrongWords := wrongWords[word := 0];
      var count := if word in wrongCountTracker then wrongCountTracker[word] else 0;
      wrongCountTracker := wrongCountTracker[word := count + 1];
    }

    method AddWordBackToPractice(word: string)
      modifies this
      ensures State() == AddBack(old(State()), word)
    {
      if word in wrongCountTracker {
        wrongWords := wrongWords[word := 0];
      }
    }

    function HasEnoughWordsForPersonalizedQuiz(): (r: bool)
      reads this
      ensures r == HasEnoughWords(State())
    {
      |wrongWords| >= QuizThreshold
    }

    function GetStreakForWord(word: string): (r: int)
      reads this
      ensures r == Streak(State(), word)
    {
      if word in wrongWords then wrongWords[word] else 0
    }

    function GetWrongCountForWord(word: string): (r: int)
      reads this
      ensures r == WrongCount(State(), word)
    {
      if word in wrongCountTracker then wrongCountTracker[word] else 0
    }

    /** `getWrongWordsForQuiz`: the words in practice, each once, in the dictionary's own (unspecified) order. */
    method GetWrongWordsForQuiz() returns (r: seq<string>)
      ensures |r| == |wrongWords| && Seqs.NoDuplicates(r)
      ensures forall w :: w in r <==> w in wrongWords
    {
      r := Seqs.SetToSequence(wrongWords.Keys);
    }

    /** The `for (word, _) in dictionary` loop both list queries run: one row per key, in the
        dictionary's own (unspecified) order. */
    method CollectEntries(keys: set<string>) returns (list: seq<Entry>)
      ensures |list| == |keys| && DistinctWords(list)
      ensures WordsOf(list) == keys
      ensures forall i :: 0 <= i < |list| ==> list[i] == EntryFor(State(), list[i].word)
    {
      list := [];
      var remaining := keys;
      while remaining != {}
        invariant remaining <= keys
        invariant |list| + |remaining| == |keys|
        invariant DistinctWords(list)
        invariant WordsOf(list) == keys - remaining
        invariant forall i :: 0 <= i < |list| ==> list[i] == EntryFor(State(), list[i].word)
        decreases |remaining|
      {
        var word :| word in remaining;
        var streak := if word in wrongWords then wrongWords[word] else 0;
        var count := if word in wrongCountTracker then wrongCountTracker[word] else 0;
        AppendRow(list, Entry(word, count, streak));
        list := list + [Entry(word, count, streak)];
        remaining := remaining - {word};
      }
    }

    /** `getAllWrongWordsWithCounts`: exactly one row per word with a history (streak 0 once
        mastered), sorted by non-increasing lifetime count. */
    method GetAllWrongWordsWithCounts() returns (r: seq<Entry>)
      ensures |r| == |wrongCountTracker| && DistinctWords(r)
      ensures WordsOf(r) == wrongCountTracker.Keys
      ensures forall i :: 0 <= i < |r| ==> r[i] == EntryFor(State(), r[i].word)
      ensures SortedByCount(r)
    {
      var list := CollectEntries(wrongCountTracker.Keys);
      r := SortByCount(list);
      SortKeepsRows(list, r);
    }

    /** `getWordsCurrentlyInPractice`: exactly one row per word in practice, sorted by
        non-increasing lifetime count. */
    method GetWordsCurrentlyInPractice() returns (r: seq<Entry>)
      ensures |r| == |wrongWords| && DistinctWords(r)
      ensures WordsOf(r) == wrongWords.Keys
      ensures forall i :: 0 <= i < |r| ==> r[i] == EntryFor(State(), r[i].word)
      ensures SortedByCount(r)
    {
      var list := CollectEntries(wrongWords.Keys);
      r := SortByCount(list);
      SortKeepsRows(list, r);
    }
  }
}
