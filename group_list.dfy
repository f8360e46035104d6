/** The group screens of WordGroupViewController.swift: the list's search and difficulty filter, and
    the completion toggle of a group's word list.

    Lowercasing is modelled on ASCII letters only; Swift's `lowercased()` follows Unicode. */
module GroupList {
  import opened Wrappers
  import Seqs
  import opened WordGroups

  /** The segmented control has five segments: All, Beginner, Intermediate, Advanced, Expert. */
  const SegmentCount := 5

  // ----- Text matching -----

  function LowerChar(c: char): char {
    if 'A' <= c <= 'Z' then (c as int + 32) as char else c
  }

  /** `lowercased()` on ASCII letters: upper-case letters become lower-case, everything else stays. */
  function Lower(s: string): (r: string)
    ensures |r| == |s|
    ensures forall i :: 0 <= i < |s| ==> !('A' <= r[i] <= 'Z')
  {
    seq(|s|, i requires 0 <= i < |s| => LowerChar(s[i]))
  }

  /** Lowercasing twice is lowercasing once. */
  lemma LowerIdempotent(s: string)
    ensures Lower(Lower(s)) == Lower(s)
  {
  }

  /** `s` starts with `q`. */
  predicate StartsWith(s: string, q: string) {
    |q| <= |s| && s[..|q|] == q
  }

  /** `s.contains(q)`: some suffix of `s` starts with `q`. */
  predicate Contains(s: string, q: string)
    decreases |s|
  {
    StartsWith(s, q) || (s != [] && Contains(s[1..], q))
  }

  /** `q` occurs in `s` at position `i`. */
  predicate OccursAt(s: string, q: string, i: int) {
    0 <= i && i + |q| <= |s| && s[i..i + |q|] == q
  }

  /** The search matches exactly when the query occurs somewhere in the text. */
  lemma {:induction false} ContainsOccurs(s: string, q: string)
    ensures Contains(s, q) <==> exists i :: OccursAt(s, q, i)
    decreases |s|
  {
    if StartsWith(s, q) {
      assert OccursAt(s, q, 0);
    } else if s != [] {
      ContainsOccurs(s[1..], q);
      if exists i :: OccursAt(s[1..], q, i) {
        var i :| OccursAt(s[1..], q, i);
        assert s[i + 1..i + 1 + |q|] == s[1..][i..i + |q|];
        assert OccursAt(s, q, i + 1);
      }
      if exists i :: OccursAt(s, q, i) {
        var i :| OccursAt(s, q, i);
        assert i != 0;
        assert s[1..][i - 1..i - 1 + |q|] == s[i..i + |q|];
        assert OccursAt(s[1..], q, i - 1);
      }
    }
  }

  /** The search test of `filterGroups`: the lowercased name or one of the lowercased words
      contains the (lowercased) query. */
  predicate Matches(g: WordGroup, query: string) {
    Contains(Lower(g.groupName), query) || exists w :: w in g.words && Contains(Lower(w), query)
  }

  function SearchKeep(query: string): WordGroup -> bool {
    (g: WordGroup) => Matches(g, query)
  }

  function DifficultyKeep(d: Difficulty): WordGroup -> bool {
    (g: WordGroup) => g.difficulty == d
  }

  /** `[.beginner, .intermediate, .advanced, .expert][segment - 1]`. */
  function SegmentDifficulty(segment: nat): (d: Difficulty)
    requires 1 <= segment < SegmentCount
    ensures Rank(d) == segment - 1
  {
    [Beginner, Intermediate, Advanced, Expert][segment - 1]
  }

  // ----- filterGroups -----

  /** The search is applied only while the search bar is active and its text is not empty. */
  predicate Searching(searchActive: bool, searchText: string) {
    searchActive && searchText != []
  }

  /** The first stage of `filterGroups`. */
  function SearchStage(groups: seq<WordGroup>, searchActive: bool, searchText: string): seq<WordGroup> {
    if Searching(searchActive, searchText) then Seqs.Filter(groups, SearchKeep(Lower(searchText))) else groups
  }

  /** `filterGroups`: the search stage, then, on any segment but "All", the groups of the
      segment's difficulty. */
  function FilterGroups(groups: seq<WordGroup>, searchActive: bool, searchText: string, segment: nat): (r: seq<WordGroup>)
    requires segment < SegmentCount
    ensures |r| <= |groups| && multiset(r) <= multiset(groups)
  {
    var found := SearchStage(groups, searchActive, searchText);
    if segment > 0 then Seqs.Filter(found, DifficultyKeep(SegmentDifficulty(segment))) else found
  }

  /** With no search text and the "All" segment, every group is listed, in order. */
  lemma NoFilterListsAll(groups: seq<WordGroup>, searchActive: bool, searchText: string)
    requires !Searching(searchActive, searchText)
    ensures FilterGroups(groups, searchActive, searchText, 0) == groups
  {
  }

  /** A group is listed exactly when it is one of the groups, it matches the search when there is
      one, and it has the segment's difficulty when a difficulty is selected. */
  lemma FilterGroupsMembers(groups: seq<WordGroup>, searchActive: bool, searchText: string, segment: nat, g: WordGroup)
    requires segment < SegmentCount
    ensures g in FilterGroups(groups, searchActive, searchText, segment) <==>
      g in groups &&
      (Searching(searchActive, searchText) ==> Matches(g, Lower(searchText))) &&
      (segment > 0 ==> g.difficulty == SegmentDifficulty(segment))
    ensures multiset(FilterGroups(groups, searchActive, searchText, segment))[g] ==
      if (Searching(searchActive, searchText) ==> Matches(g, Lower(searchText))) &&
         (segment > 0 ==> g.difficulty == SegmentDifficulty(segment))
      then multiset(groups)[g] else 0
  {
    var found := SearchStage(groups, searchActive, searchText);
    if Searching(searchActive, searchText) {
      Seqs.FilterContains(groups, SearchKeep(Lower(searchText)), g);
      Seqs.FilterCount(groups, SearchKeep(Lower(searchText)), g);
    }
    if segment > 0 {
      Seqs.FilterContains(found, DifficultyKeep(SegmentDifficulty(segment)), g);
      Seqs.FilterCount(found, DifficultyKeep(SegmentDifficulty(segment)), g);
    }
  }

  /** The list keeps the groups' order: it is a subsequence of all the groups. */
  lemma FilterGroupsInOrder(groups: seq<WordGroup>, searchActive: bool, searchText: string, segment: nat)
    requires segment < SegmentCount
    ensures Seqs.IsSubsequence(FilterGroups(groups, searchActive, searchText, segment), groups)
  {
    var search := SearchKeep(Lower(searchText));
    if segment > 0 {
      var level := DifficultyKeep(SegmentDifficulty(segment));
      if Searching(searchActive, searchText) {
        Seqs.FilterFilter(groups, search, level);
        Seqs.FilterIsSubsequence(groups, Seqs.Both(search, level));
      } else {
        Seqs.FilterIsSubsequence(groups, level);
      }
    } else if Searching(searchActive, searchText) {
      Seqs.FilterIsSubsequence(groups, search);
    } else {
      Seqs.IsSubsequenceOfSelf(groups);
    }
  }

  // ----- toggleCompletionStatus -----

  /** What `toggleCompletionStatus` leaves: a completed group is reset, any other group is marked
      completed at `now`; an unknown id changes nothing. */
  function ToggleCompletion(gs: seq<WordGroup>, id: int, now: int): (r: seq<WordGroup>)
    ensures |r| == |gs|
    ensures forall j :: 0 <= j < |gs| && gs[j].groupId != id ==> r[j] == gs[j]
  {
    match GetWordGroup(gs, id)
    case None => gs
    case Some(g) => if g.isCompleted then ResetGroup(gs, id) else MarkCompleted(gs, id, now)
  }

  /** The toggle flips the group's completion and keeps every id in place. */
  lemma ToggleFlips(gs: seq<WordGroup>, id: int, now: int)
    ensures SameIds(ToggleCompletion(gs, id, now), gs)
    ensures GetWordGroup(gs, id).None? ==> ToggleCompletion(gs, id, now) == gs
    ensures GetWordGroup(gs, id).Some? ==>
      GetWordGroup(ToggleCompletion(gs, id, now), id).Some? &&
      GetWordGroup(ToggleCompletion(gs, id, now), id).value.isCompleted == !GetWordGroup(gs, id).value.isCompleted
  {
    CompletionLookups(gs, id, now);
  }

  /** Toggling twice restores the completion state of the group. */
  lemma ToggleTwice(gs: seq<WordGroup>, id: int, now: int, later: int)
    requires GetWordGroup(gs, id).Some?
    ensures var twice := ToggleCompletion(ToggleCompletion(gs, id, now), id, later);
      GetWordGroup(twice, id).Some? && GetWordGroup(twice, id).value.isCompleted == GetWordGroup(gs, id).value.isCompleted
  {
    ToggleFlips(gs, id, now);
    ToggleFlips(ToggleCompletion(gs, id, now), id, later);
  }

  /** `WordListViewController.toggleCompletionStatus`: the lookup `getWordGroup(byId:)` first
      initialises the service, then the group is reset or marked completed. */
  method ToggleCompletionStatus(service: WordGroupService, groupId: int, now: int)
    modifies service
    ensures service.wordGroups == ToggleCompletion(old(service.Ready()).0, groupId, now)
    ensures service.isInitialized == old(service.Ready()).1
  {
    var group := service.GetWordGroupById(groupId);
    if group.Some? {
      if group.value.isCompleted {
        service.ResetGroupById(groupId);
      } else {
        service.MarkGroupAsCompleted(groupId, now);
      }
    }
  }
}
