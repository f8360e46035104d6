/** The word corpus: entries, definition styles, the style fallback chain and random picks
    (WordModel.swift, `Word` and `WordService`). */
module Words {
  import opened Wrappers
  import Seqs

  /** One vocabulary entry; identity is the `word` text, compared exactly. */
  datatype Word = Word(word: string, meaning: string)

  datatype Style = Standard | Concise | Flashcard

  /** What each bundled corpus file decodes to: None when the file is missing or fails to decode.
      Standard is "words.json", Concise "short_words.json", Flashcard "words_flashcard.json". */
  datatype Bundle = Bundle(standard: Option<seq<Word>>, concise: Option<seq<Word>>, flashcard: Option<seq<Word>>)

  function FileFor(b: Bundle, style: Style): Option<seq<Word>> {
    match style
    case Standard => b.standard
    case Concise => b.concise
    case Flashcard => b.flashcard
  }

  /** The files tried, in order, for each style: flashcard falls back to concise, concise to standard. */
  function FallbackChain(style: Style): (r: seq<Style>)
    ensures |r| >= 1 && r[0] == style && r[|r| - 1] == Standard
    ensures Seqs.NoDuplicates(r)
  {
    match style
    case Flashcard => [Flashcard, Concise, Standard]
    case Concise => [Concise, Standard]
    case Standard => [Standard]
  }

  /** The first available file along `chain`, or None when every file on it is missing. */
  function FirstAvailable(b: Bundle, chain: seq<Style>): (r: Option<seq<Word>>)
    ensures r.None? <==> forall k :: 0 <= k < |chain| ==> FileFor(b, chain[k]).None?
    ensures r.Some? ==> exists k :: 0 <= k < |chain| && r == FileFor(b, chain[k])
                                   && forall j :: 0 <= j < k ==> FileFor(b, chain[j]).None?
  {
    if chain == [] then None
    else if FileFor(b, chain[0]).Some? then FileFor(b, chain[0])
    else
      var r := FirstAvailable(b, chain[1..]);
      assert forall k :: 1 <= k < |chain| ==> chain[k] == chain[1..][k - 1];
      if r.Some? then
        var k :| 0 <= k < |chain[1..]| && r == FileFor(b, chain[1..][k])
                 && forall j :: 0 <= j < k ==> FileFor(b, chain[1..][j]).None?;
        assert r == FileFor(b, chain[k + 1]);
        assert forall j :: 0 <= j < k + 1 ==> FileFor(b, chain[j]).None?;
        r
      else r
  }

  /** `loadWords(style:)`: the first file of the style's fallback chain that is available, or None
      when none is. The per-style cache of the source only avoids re-reading a file, so for a
      fixed bundle it does not change any result. */
  function LoadWords(b: Bundle, style: Style): (r: Option<seq<Word>>)
    decreases |FallbackChain(style)|
    ensures r == FirstAvailable(b, FallbackChain(style))
  {
    match style
    case Standard => b.standard
    case Concise =>
      assert FallbackChain(Concise)[1..] == FallbackChain(Standard);
      if b.concise.Some? then b.concise else LoadWords(b, Standard)
    case Flashcard =>
      assert FallbackChain(Flashcard)[1..] == FallbackChain(Concise);
      if b.flashcard.Some? then b.flashcard else LoadWords(b, Concise)
  }

  /** `getRandomWords(count:style:)`. `loaded` is what `loadWords` gave and `shuffled` the order
      `shuffled()` produced (any rearrangement of the loaded list). */
  function GetRandomWords(loaded: Option<seq<Word>>, count: nat, shuffled: seq<Word>): (r: Option<seq<Word>>)
    requires loaded.Some? ==> multiset(shuffled) == multiset(loaded.value)
    ensures r.None? <==> loaded.None? || loaded.value == []
    ensures r.Some? ==> |r.value| == Seqs.Min(count, |loaded.value|)
    ensures r.Some? ==> multiset(r.value) <= multiset(loaded.value)
  {
    if loaded.None? || loaded.value == [] then None
    else
      assert |shuffled| == |loaded.value| by {
        assert |multiset(shuffled)| == |multiset(loaded.value)|;
      }
      var n := Seqs.Min(count, |shuffled|);
      Seqs.PrefixSubMultiset(shuffled, n);
      Some(shuffled[..n])
  }
}
