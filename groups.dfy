/** Study groups of fifteen words (WordGroups.swift, `WordGroup` and `WordGroupService`).

    Saved groups (UserDefaults) are a constructor parameter and saving is left out; `Date()` is the
    `now` parameter, a time in whole seconds. */
module WordGroups {
  import opened Wrappers
  import opened Words
  import Seqs
  import Decimal

  const GroupSize := 15

  datatype Difficulty = Beginner | Intermediate | Advanced | Expert

  /** The position of a difficulty in the order beginner < intermediate < advanced < expert. */
  function Rank(d: Difficulty): nat {
    match d
    case Beginner => 0
    case Intermediate => 1
    case Advanced => 2
    case Expert => 3
  }

  datatype WordGroup = WordGroup(groupId: int, groupName: string, words: seq<string>, difficulty: Difficulty,
                                 isCompleted: bool, lastStudied: Option<int>)

  /** `ceil(n / 15)`: enough groups of fifteen for `n` words, and no more. */
  function NumberOfGroups(n: nat): (k: nat)
    ensures k * GroupSize >= n
    ensures k > 0 ==> (k - 1) * GroupSize < n
    ensures k == 0 <==> n == 0
  {
    (n + GroupSize - 1) / GroupSize
  }

  /** The difficulty of group `i` out of `count`, by quarter of the group list. */
  function DifficultyFor(i: nat, count: nat): (d: Difficulty)
    ensures d == Beginner <==> i < count / 4
    ensures d == Expert <==> i >= (count * 3) / 4
  {
    if i < count / 4 then Beginner
    else if i < count / 2 then Intermediate
    else if i < (count * 3) / 4 then Advanced
    else Expert
  }

  function GroupName(id: nat): string {
    "Group " + Decimal.NatToString(id)
  }

  /** The words of group `i`: indices `15 i ..< min(15 i + 15, n)`. */
  function Slice(ws: seq<string>, i: nat): seq<string>
    requires i < NumberOfGroups(|ws|)
  {
    ws[i * GroupSize .. Seqs.Min(i * GroupSize + GroupSize, |ws|)]
  }

  function NewGroup(i: nat, words: seq<string>, count: nat): WordGroup {
    WordGroup(i + 1, GroupName(i + 1), words, DifficultyFor(i, count), false, None)
  }

  /** The groups `createWordGroups` builds from the word texts `ws`. */
  function Partition(ws: seq<string>): (gs: seq<WordGroup>)
    ensures |gs| == NumberOfGroups(|ws|)
  {
    var k := NumberOfGroups(|ws|);
    seq(k, i requires 0 <= i < k => NewGroup(i, Slice(ws, i), k))
  }

  /** The words of the groups, one group after another. */
  function Flatten(gs: seq<WordGroup>): seq<string>
    decreases |gs|
  {
    if gs == [] then [] else Flatten(gs[..|gs| - 1]) + gs[|gs| - 1].words
  }

  function WordTexts(ws: seq<Word>): (r: seq<string>)
    ensures |r| == |ws| && forall i :: 0 <= i < |ws| ==> r[i] == ws[i].word
  {
    seq(|ws|, i requires 0 <= i < |ws| => ws[i].word)
  }

  // ---------------------------------------------------------------------------------------------
  // Properties of the partition

  lemma PartitionAt(ws: seq<string>, i: nat)
    requires i < NumberOfGroups(|ws|)
    ensures Partition(ws)[i] == NewGroup(i, Slice(ws, i), NumberOfGroups(|ws|))
  {
  }

  /** Group `k - 1` starts where the first `k - 1` groups end and ends where the first `k` end. */
  lemma GroupBounds(n: nat, k: nat) returns (lo: nat, hi: nat)
    requires 0 < k <= NumberOfGroups(n)
    ensures lo == (k - 1) * GroupSize && lo < n
    ensures lo == Seqs.Min((k - 1) * GroupSize, n)
    ensures hi == Seqs.Min(k * GroupSize, n) && hi == Seqs.Min(lo + GroupSize, n) && lo <= hi
  {
    lo := (k - 1) * GroupSize;
    hi := Seqs.Min(k * GroupSize, n);
  }

  lemma {:induction false} FlattenPrefix(ws: seq<string>, k: nat)
    requires k <= NumberOfGroups(|ws|)
    ensures Flatten(Partition(ws)[..k]) == ws[..Seqs.Min(k * GroupSize, |ws|)]
  {
    if k > 0 {
      var gs := Partition(ws);
      var lo, hi := GroupBounds(|ws|, k);
      FlattenPrefix(ws, k - 1);
      assert gs[..k][..k - 1] == gs[..k - 1];
      PartitionAt(ws, k - 1);
      assert gs[k - 1].words == ws[lo..hi];
      assert ws[..lo] + ws[lo..hi] == ws[..hi];
    }
  }

  /** The groups' word lists, concatenated in order, give back the word texts in their order. */
  lemma PartitionConcatenates(ws: seq<string>)
    ensures Flatten(Partition(ws)) == ws
  {
    var k := NumberOfGroups(|ws|);
    FlattenPrefix(ws, k);
    assert Partition(ws)[..k] == Partition(ws);
  }

  /** Every group holds fifteen words except the last, which holds one to fifteen. */
  lemma PartitionSizes(ws: seq<string>)
    ensures var gs := Partition(ws);
      (forall i :: 0 <= i < |gs| - 1 ==> |gs[i].words| == GroupSize) &&
      (|gs| > 0 ==> 1 <= |gs[|gs| - 1].words| <= GroupSize)
  {
    var gs := Partition(ws);
    forall i | 0 <= i < |gs| - 1 ensures |gs[i].words| == GroupSize {
      PartitionAt(ws, i);
      assert (i + 1) * GroupSize <= (|gs| - 1) * GroupSize;
    }
    if |gs| > 0 {
      PartitionAt(ws, |gs| - 1);
    }
  }

  /** Group ids run 1, 2, ... in order, named "Group 1", "Group 2", ..., none completed or studied. */
  lemma PartitionIdentities(ws: seq<string>)
    ensures var gs := Partition(ws);
      forall i :: 0 <= i < |gs| ==>
        gs[i].groupId == i + 1 && gs[i].groupName == "Group " + Decimal.NatToString(i + 1) &&
        !gs[i].isCompleted && gs[i].lastStudied.None?
  {
  }

  /** Difficulty never decreases along the group list, and the last group is expert. */
  lemma DifficultyNonDecreasing(count: nat, i: nat, j: nat)
    requires i <= j < count
    ensures Rank(DifficultyFor(i, count)) <= Rank(DifficultyFor(j, count))
    ensures DifficultyFor(count - 1, count) == Expert
  {
    assert (count * 3) / 4 <= count - 1;
  }

  /** `createWordGroups`' loop: one group per fifteen words. */
  method BuildGroups(wordStrings: seq<string>) returns (groups: seq<WordGroup>)
    ensures groups == Partition(wordStrings)
  {
    var groupSize := GroupSize;
    var numberOfGroups := NumberOfGroups(|wordStrings|);
    groups := [];
    for i := 0 to numberOfGroups
      invariant groups == Partition(wordStrings)[..i]
    {
      var startIndex := i * groupSize;
      var endIndex := Seqs.Min(startIndex + groupSize, |wordStrings|);
      var groupWords := wordStrings[startIndex..endIndex];
      var difficulty: Difficulty;
      if i < numberOfGroups / 4 {
        difficulty := Beginner;
      } else if i < numberOfGroups / 2 {
        difficulty := Intermediate;
      } else if i < (numberOfGroups * 3) / 4 {
        difficulty := Advanced;
      } else {
        difficulty := Expert;
      }
      var group := WordGroup(i + 1, "Group " + Decimal.NatToString(i + 1), groupWords, difficulty, false, None);
      PartitionAt(wordStrings, i);
      assert Partition(wordStrings)[..i + 1] == Partition(wordStrings)[..i] + [group];
      groups := groups + [group];
    }
    assert Partition(wordStrings)[..numberOfGroups] == Partition(wordStrings);
  }

  // ---------------------------------------------------------------------------------------------
  // Lookups

  /** Swift's `firstIndex(where:)`: the first index whose group satisfies `p`. */
  function FirstIndex(gs: seq<WordGroup>, p: WordGroup -> bool): (r: Option<nat>)
    ensures r.None? <==> forall j :: 0 <= j < |gs| ==> !p(gs[j])
    ensures r.Some? ==> r.value < |gs| && p(gs[r.value]) && forall j :: 0 <= j < r.value ==> !p(gs[j])
    decreases |gs|
  {
    if gs == [] then None
    else if p(gs[0]) then Some(0)
    else
      assert forall j :: 1 <= j < |gs| ==> gs[j] == gs[1..][j - 1];
      match FirstIndex(gs[1..], p)
      case None => None
      case Some(k) => Some(k + 1)
  }

  predicate HasId(id: int, g: WordGroup) {
    g.groupId == id
  }

  predicate Incomplete(g: WordGroup) {
    !g.isCompleted
  }

  function FindGroupIndex(gs: seq<WordGroup>, id: int): (r: Option<nat>)
    ensures r.None? <==> forall j :: 0 <= j < |gs| ==> gs[j].groupId != id
    ensures r.Some? ==> r.value < |gs| && gs[r.value].groupId == id
                        && forall j :: 0 <= j < r.value ==> gs[j].groupId != id
  {
    FirstIndex(gs, g => HasId(id, g))
  }

  /** `getWordGroup(byId:)`: the first group with that id, or None when there is none. */
  function GetWordGroup(gs: seq<WordGroup>, id: int): (r: Option<WordGroup>)
    ensures r.None? <==> forall j :: 0 <= j < |gs| ==> gs[j].groupId != id
    ensures r.Some? ==> exists k :: 0 <= k < |gs| && gs[k] == r.value && r.value.groupId == id
                                   && forall j :: 0 <= j < k ==> gs[j].groupId != id
  {
    match FindGroupIndex(gs, id)
    case None => None
    case Some(k) => Some(gs[k])
  }

  /** `getNextIncompleteGroup`: the first group not completed, or None when all are. */
  function GetNextIncompleteGroup(gs: seq<WordGroup>): (r: Option<WordGroup>)
    ensures r.None? <==> forall j :: 0 <= j < |gs| ==> gs[j].isCompleted
    ensures r.Some? ==> exists k :: 0 <= k < |gs| && gs[k] == r.value && !r.value.isCompleted
                                   && forall j :: 0 <= j < k ==> gs[j].isCompleted
  {
    match FirstIndex(gs, Incomplete)
    case None => None
    case Some(k) => Some(gs[k])
  }

  /** `getWordGroups(byDifficulty:)`: the groups of that difficulty, in their order. */
  function GroupsByDifficulty(gs: seq<WordGroup>, d: Difficulty): (r: seq<WordGroup>)
    ensures forall g :: g in r <==> g in gs && g.difficulty == d
    ensures forall g :: multiset(r)[g] == if g.difficulty == d then multiset(gs)[g] else 0
    ensures Seqs.IsSubsequence(r, gs)
  {
    var keep := (g: WordGroup) => g.difficulty == d;
    forall g ensures multiset(Seqs.Filter(gs, keep))[g] == if keep(g) then multiset(gs)[g] else 0 {
      Seqs.FilterCount(gs, keep, g);
    }
    Seqs.FilterIsSubsequence(gs, keep);
    assert forall g :: g in Seqs.Filter(gs, keep) <==> g in gs && keep(g) by {
      forall g ensures g in Seqs.Filter(gs, keep) <==> g in gs && keep(g) {
        Seqs.FilterContains(gs, keep, g);
      }
    }
    Seqs.Filter(gs, keep)
  }

  /** `getWordObjectsForGroup`: the corpus entries whose word is in the group, in corpus order;
      None when there is no such group or the corpus does not load. */
  function WordObjectsForGroup(gs: seq<WordGroup>, id: int, corpus: Option<seq<Word>>): (r: Option<seq<Word>>)
    ensures r.Some? <==> GetWordGroup(gs, id).Some? && corpus.Some?
    ensures r.Some? ==> Seqs.IsSubsequence(r.value, corpus.value)
    ensures r.Some? ==> forall w :: w in r.value <==> w in corpus.value && w.word in GetWordGroup(gs, id).value.words
    ensures r.Some? ==>
      forall w :: multiset(r.value)[w] == if w.word in GetWordGroup(gs, id).value.words then multiset(corpus.value)[w] else 0
  {
    match GetWordGroup(gs, id)
    case None => None
    case Some(g) =>
      if corpus.None? then None
      else
        var keep := (w: Word) => w.word in g.words;
        Seqs.FilterIsSubsequence(corpus.value, keep);
        forall w ensures multiset(Seqs.Filter(corpus.value, keep))[w] == if keep(w) then multiset(corpus.value)[w] else 0 {
          Seqs.FilterCount(corpus.value, keep, w);
        }
        assert forall w :: w in Seqs.Filter(corpus.value, keep) <==> w in corpus.value && keep(w) by {
          forall w ensures w in Seqs.Filter(corpus.value, keep) <==> w in corpus.value && keep(w) {
            Seqs.FilterContains(corpus.value, keep, w);
          }
        }
        Some(Seqs.Filter(corpus.value, keep))
  }

  // ---------------------------------------------------------------------------------------------
  // Completion state

  /** `markGroupAsCompleted`: the first group with the id becomes completed and studied at `now`;
      nothing changes when no group has the id. */
  function MarkCompleted(gs: seq<WordGroup>, id: int, now: int): (r: seq<WordGroup>)
    ensures |r| == |gs|
    ensures FindGroupIndex(gs, id).None? ==> r == gs
    ensures FindGroupIndex(gs, id).Some? ==>
      var k := FindGroupIndex(gs, id).value;
      r[k].isCompleted && r[k].lastStudied == Some(now) &&
      r[k].(isCompleted := gs[k].isCompleted, lastStudied := gs[k].lastStudied) == gs[k] &&
      forall j :: 0 <= j < |gs| && j != k ==> r[j] == gs[j]
  {
    match FindGroupIndex(gs, id)
    case None => gs
    case Some(k) => gs[k := gs[k].(isCompleted := true, lastStudied := Some(now))]
  }

  /** `resetGroup`: the first group with the id is no longer completed, keeping its last study
      time; nothing changes when no group has the id. */
  function ResetGroup(gs: seq<WordGroup>, id: int): (r: seq<WordGroup>)
    ensures |r| == |gs|
    ensures FindGroupIndex(gs, id).None? ==> r == gs
    ensures FindGroupIndex(gs, id).Some? ==>
      var k := FindGroupIndex(gs, id).value;
      !r[k].isCompleted && r[k].(isCompleted := gs[k].isCompleted) == gs[k] &&
      forall j :: 0 <= j < |gs| && j != k ==> r[j] == gs[j]
  {
    match FindGroupIndex(gs, id)
    case None => gs
    case Some(k) => gs[k := gs[k].(isCompleted := false)]
  }

  predicate SameIds(a: seq<WordGroup>, b: seq<WordGroup>) {
    |a| == |b| && forall j :: 0 <= j < |a| ==> a[j].groupId == b[j].groupId
  }

  lemma FindGroupIndexSameIds(a: seq<WordGroup>, b: seq<WordGroup>, id: int)
    requires SameIds(a, b)
    ensures FindGroupIndex(a, id) == FindGroupIndex(b, id)
  {
  }

  /** Marking and resetting keep every id where it was, so a later lookup by id finds the same
      group: after marking it is completed, after resetting it is not. */
  lemma CompletionLookups(gs: seq<WordGroup>, id: int, now: int)
    ensures SameIds(MarkCompleted(gs, id, now), gs) && SameIds(ResetGroup(gs, id), gs)
    ensures GetWordGroup(gs, id).Some? ==>
      GetWordGroup(MarkCompleted(gs, id, now), id).Some? && GetWordGroup(MarkCompleted(gs, id, now), id).value.isCompleted &&
      GetWordGroup(ResetGroup(gs, id), id).Some? && !GetWordGroup(ResetGroup(gs, id), id).value.isCompleted
    ensures GetWordGroup(gs, id).None? ==> MarkCompleted(gs, id, now) == gs && ResetGroup(gs, id) == gs
  {
    var m, r := MarkCompleted(gs, id, now), ResetGroup(gs, id);
    FindGroupIndexSameIds(m, gs, id);
    FindGroupIndexSameIds(r, gs, id);
  }

  // ---------------------------------------------------------------------------------------------
  // The service

  class WordGroupService {
    var wordGroups: seq<WordGroup>
    var isInitialized: bool
    /** The corpus files `loadWords()` reads from. */
    const bundle: Bundle

    /** The groups and the flag once the lazy initialisation of the getters has run. */
    function Ready(): (seq<WordGroup>, bool)
      reads this
    {
      if isInitialized then (wordGroups, true)
      else match LoadWords(bundle, Standard)
        case None => (wordGroups, false)
        case Some(ws) => (Partition(WordTexts(ws)), true)
    }

    /** `init` with `loadWordGroups`: the saved groups when they decode, otherwise the groups built
        from the corpus (none, and not initialised, when the corpus does not load). */
    constructor (bundle: Bundle, saved: Option<seq<WordGroup>>)
      ensures this.bundle == bundle
      ensures saved.Some? ==> wordGroups == saved.value && isInitialized
      ensures saved.None? ==> LoadWords(bundle, Standard).None? ==> wordGroups == [] && !isInitialized
      ensures saved.None? ==> LoadWords(bundle, Standard).Some? ==>
        wordGroups == Partition(WordTexts(LoadWords(bundle, Standard).value)) && isInitialized
    {
      this.bundle := bundle;
      wordGroups := if saved.Some? then saved.value else [];
      isInitialized := saved.Some?;
      new;
      if saved.None? {
        CreateWordGroups();
      }
    }

    /** `createWordGroups`: replaces the groups by the partition of the corpus' word texts; does
        nothing when the corpus does not load. */
    method CreateWordGroups()
      modifies this
      ensures LoadWords(bundle, Standard).None? ==> wordGroups == old(wordGroups) && isInitialized == old(isInitialized)
      ensures LoadWords(bundle, Standard).Some? ==>
        wordGroups == Partition(WordTexts(LoadWords(bundle, Standard).value)) && isInitialized
    {
      var allWords := LoadWords(bundle, Standard);
      if allWords.None? {
        return;
      }
      var newGroups := BuildGroups(WordTexts(allWords.value));
      wordGroups := newGroups;
      isInitialized := true;
    }

    method EnsureInitialized()
      modifies this
      ensures (wordGroups, isInitialized) == old(Ready())
    {
      if !isInitialized {
        CreateWordGroups();
      }
    }

    method GetAllWordGroups() returns (r: seq<WordGroup>)
      modifies this
      ensures (wordGroups, isInitialized) == old(Ready()) && r == wordGroups
    {
      EnsureInitialized();
      r := wordGroups;
    }

    method GetWordGroupsByDifficulty(difficulty: Difficulty) returns (r: seq<WordGroup>)
      modifies this
      ensures (wordGroups, isInitialized) == old(Ready()) && r == GroupsByDifficulty(wordGroups, difficulty)
    {
      EnsureInitialized();
      r := GroupsByDifficulty(wordGroups, difficulty);
    }

    method GetWordGroupById(id: int) returns (r: Option<WordGroup>)
      modifies this
      ensures (wordGroups, isInitialized) == old(Ready()) && r == GetWordGroup(wordGroups, id)
    {
      EnsureInitialized();
      r := GetWordGroup(wordGroups, id);
    }

    method GetNextIncompleteGroupOf() returns (r: Option<WordGroup>)
      modifies this
      ensures (wordGroups, isInitialized) == old(Ready()) && r == GetNextIncompleteGroup(wordGroups)
    {
      EnsureInitialized();
      r := GetNextIncompleteGroup(wordGroups);
    }

    /** Acts on the groups as they are: unlike the getters it does not initialise them first. */
    method MarkGroupAsCompleted(groupId: int, now: int)
      modifies this
      ensures wordGroups == MarkCompleted(old(wordGroups), groupId, now) && isInitialized == old(isInitialized)
    {
      var index := FindGroupIndex(wordGroups, groupId);
      if index.Some? {
        var k := index.value;
        wordGroups := wordGroups[k := wordGroups[k].(isCompleted := true)];
        wordGroups := wordGroups[k := wordGroups[k].(lastStudied := Some(now))];
      }
    }

    method ResetGroupById(groupId: int)
      modifies this
      ensures wordGroups == ResetGroup(old(wordGroups), groupId) && isInitialized == old(isInitialized)
    {
      var index := FindGroupIndex(wordGroups, groupId);
      if index.Some? {
        var k := index.value;
        wordGroups := wordGroups[k := wordGroups[k].(isCompleted := false)];
      }
    }

    method GetWordsFromGroup(groupId: int) returns (r: Option<seq<string>>)
      modifies this
      ensures (wordGroups, isInitialized) == old(Ready())
      ensures r.None? <==> GetWordGroup(wordGroups, groupId).None?
      ensures r.Some? ==> r.value == GetWordGroup(wordGroups, groupId).value.words
    {
      var g := GetWordGroupById(groupId);
      r := if g.None? then None else Some(g.value.words);
    }

    method GetWordObjectsForGroup(groupId: int) returns (r: Option<seq<Word>>)
      modifies this
      ensures (wordGroups, isInitialized) == old(Ready())
      ensures r == WordObjectsForGroup(wordGroups, groupId, LoadWords(bundle, Standard))
    {
      var wordStrings := GetWordsFromGroup(groupId);
      if wordStrings.None? {
        return None;
      }
      var allWords := LoadWords(bundle, Standard);
      if allWords.None? {
        return None;
      }
      var keep := (w: Word) => w.word in wordStrings.value;
      r := Some(Seqs.Filter(allWords.value, keep));
    }
  }
}
