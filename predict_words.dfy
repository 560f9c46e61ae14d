/** Next-word suggestions (services/PredictWordsService.py): take the network's scores, pick the
    best-scoring vocabulary positions, turn them back into words through the tokenizer's
    word index, and for each suggested word list the similar words among the user's
    not-yet-learnt vocabulary. The network, the tokenizer's text handling and the language
    parser stay outside: their results are inputs or abstract functions. */
module PredictWords {
  import opened Wrappers
  import opened Seqs
  import opened Store

  /** Positions `i < j` of `order` hold different positions of `predictions`, the later one
      scoring at least as high. */
  ghost predicate OrderedPair(order: seq<int>, predictions: seq<real>, i: int, j: int)
    requires 0 <= i < j < |order|
    requires forall k :: 0 <= k < |order| ==> 0 <= order[k] < |predictions|
  {
    order[i] != order[j] && predictions[order[i]] <= predictions[order[j]]
  }

  /** `order` is what an argsort of `predictions` returns: every position exactly once, in
      ascending order of score; equal scores may come in any order. */
  ghost predicate IsArgsort(order: seq<int>, predictions: seq<real>) {
    && |order| == |predictions|
    && (forall i :: 0 <= i < |order| ==> 0 <= order[i] < |predictions|)
    && (forall i, j :: 0 <= i < j < |order| ==> OrderedPair(order, predictions, i, j))
  }

  /** Where Python starts the slice `a[-n:]` of a list of length `len`. For `n == 0` that is
      `a[0:]`, the whole list; for a negative `n` it is `a[|n|:]`, clamped to the end. */
  function SliceStart(len: nat, n: int): (start: nat)
    ensures start <= len
    ensures n > 0 ==> start == (if n <= len then len - n else 0)
    ensures n <= 0 ==> start == (if -n <= len then -n else len)
  {
    if n > 0 then (if n <= len then len - n else 0)
    else (if -n <= len then -n else len)
  }

  /** The top positions as the code computes them: `argsort(predictions)[-n:][::-1]`. */
  function SliceTopIndices(order: seq<int>, n: int): (top: seq<int>)
    ensures |top| == |order| - SliceStart(|order|, n)
    ensures forall i :: 0 <= i < |top| ==> top[i] == order[|order| - 1 - i]
  {
    Reverse(order[SliceStart(|order|, n)..])
  }

  /** As written, asking for zero words selects every position, best first. */
  lemma ZeroCountTakesAll(order: seq<int>)
    ensures SliceTopIndices(order, 0) == Reverse(order)
  {
    assert order[0..] == order;
  }

  /** As written, a negative count drops the `|n|` lowest-scoring positions and returns the
      rest, best first. */
  lemma NegativeCountDropsLowest(order: seq<int>, n: int)
    requires n < 0 && -n <= |order|
    ensures SliceTopIndices(order, n) == Reverse(order[-n..])
    ensures |SliceTopIndices(order, n)| == |order| + n
  {
  }

  /** The `n` best-scoring positions, best first, and none when `n` is not positive. For a
      positive `n` this is exactly the code's slice. */
  function TopIndices(order: seq<int>, n: int): (top: seq<int>)
    ensures n <= 0 ==> top == []
    ensures n > 0 ==> top == SliceTopIndices(order, n)
    ensures |top| == if n <= 0 then 0 else if n < |order| then n else |order|
    ensures forall i :: 0 <= i < |top| ==> top[i] == order[|order| - 1 - i]
  {
    if n <= 0 then [] else SliceTopIndices(order, n)
  }

  /** The selected positions are distinct, come best first, and no position left out scores
      higher than one selected. */
  lemma TopIndicesAreBest(order: seq<int>, predictions: seq<real>, n: int)
    requires IsArgsort(order, predictions)
    ensures var top := TopIndices(order, n);
            && (forall i :: 0 <= i < |top| ==> 0 <= top[i] < |predictions|)
            && (forall i, j :: 0 <= i < j < |top| ==> top[i] != top[j])
            && (forall i, j :: 0 <= i < j < |top| ==> predictions[top[i]] >= predictions[top[j]])
            && (forall m, i :: 0 <= m < |order| - |top| && 0 <= i < |top| ==> predictions[order[m]] <= predictions[top[i]])
  {
    var top := TopIndices(order, n);
    forall i, j | 0 <= i < j < |top|
      ensures top[i] != top[j] && predictions[top[i]] >= predictions[top[j]]
    {
      assert top[i] == order[|order| - 1 - i] && top[j] == order[|order| - 1 - j];
      assert OrderedPair(order, predictions, |order| - 1 - j, |order| - 1 - i);
    }
    forall m, i | 0 <= m < |order| - |top| && 0 <= i < |top|
      ensures predictions[order[m]] <= predictions[top[i]]
    {
      assert top[i] == order[|order| - 1 - i];
      assert OrderedPair(order, predictions, m, |order| - 1 - i);
    }
  }

  /** The first entry of the word index whose index is `i`, as the inner loop's `break` finds it. */
  function LookupWord(wordIndex: seq<(string, int)>, i: int): (r: Option<string>)
    ensures r.None? <==> forall k :: 0 <= k < |wordIndex| ==> wordIndex[k].1 != i
    ensures r.Some? ==> exists k :: 0 <= k < |wordIndex| && wordIndex[k] == (r.value, i) &&
                           forall j :: 0 <= j < k ==> wordIndex[j].1 != i
  {
    if wordIndex == [] then None
    else if wordIndex[0].1 == i then Some(wordIndex[0].0)
    else
      var r := LookupWord(wordIndex[1..], i);
      assert r.Some? ==> exists k :: 1 <= k < |wordIndex| && wordIndex[k] == (r.value, i) &&
                           forall j :: 0 <= j < k ==> wordIndex[j].1 != i;
      r
  }

  /** The entry a scan stops at is the lookup's answer. */
  lemma {:induction false} LookupStopsAtFirst(wordIndex: seq<(string, int)>, i: int, k: int)
    requires 0 <= k < |wordIndex| && wordIndex[k].1 == i
    requires forall j :: 0 <= j < k ==> wordIndex[j].1 != i
    ensures LookupWord(wordIndex, i) == Some(wordIndex[k].0)
  {
    if k > 0 {
      LookupStopsAtFirst(wordIndex[1..], i, k - 1);
    }
  }

  /** The words of the given positions, in order; a position with no entry gives no word. */
  function WordsFor(wordIndex: seq<(string, int)>, indices: seq<int>): (r: seq<string>)
    ensures |r| <= |indices|
  {
    if indices == [] then []
    else
      var init := indices[..|indices| - 1];
      var last := indices[|indices| - 1];
      match LookupWord(wordIndex, last)
      case Some(w) => WordsFor(wordIndex, init) + [w]
      case None => WordsFor(wordIndex, init)
  }

  /** Every word produced is the word index's entry for one of the positions. */
  lemma {:induction false} WordsForFound(wordIndex: seq<(string, int)>, indices: seq<int>)
    ensures forall w :: w in WordsFor(wordIndex, indices) ==>
              exists i :: i in indices && LookupWord(wordIndex, i) == Some(w)
  {
    if indices != [] {
      var init := indices[..|indices| - 1];
      WordsForFound(wordIndex, init);
      assert forall i :: i in init ==> i in indices;
      assert indices[|indices| - 1] in indices;
    }
  }

  /** The test "the word index has an entry for this position". */
  function IsKnownIn(wordIndex: seq<(string, int)>): int -> bool {
    i => LookupWord(wordIndex, i).Some?
  }

  /** Exactly the positions the word index does not know are skipped: there is one word per
      known position, so none is skipped when every position is known. */
  lemma {:induction false} WordsForComplete(wordIndex: seq<(string, int)>, indices: seq<int>)
    ensures |WordsFor(wordIndex, indices)| == Count(indices, IsKnownIn(wordIndex))
    ensures (forall i :: i in indices ==> LookupWord(wordIndex, i).Some?) ==> |WordsFor(wordIndex, indices)| == |indices|
  {
    if indices != [] {
      var init := indices[..|indices| - 1];
      var last := indices[|indices| - 1];
      assert init + [last] == indices;
      assert forall i :: i in init ==> i in indices;
      WordsForComplete(wordIndex, init);
      CountSnoc(init, last, IsKnownIn(wordIndex));
    }
  }

  /** One more position: its word, if the index has one, goes at the end. */
  lemma WordsForSnoc(wordIndex: seq<(string, int)>, indices: seq<int>, i: int)
    ensures WordsFor(wordIndex, indices + [i]) ==
              WordsFor(wordIndex, indices) + (if LookupWord(wordIndex, i).Some? then [LookupWord(wordIndex, i).value] else [])
  {
    assert (indices + [i])[..|indices|] == indices;
  }

  /** The tag test applied to each vocabulary word, `tag != 'DT' or tag != 'PRP'`: no tag
      fails it, so it never excludes a word. The whole per-word test of `find_synonyms` is
      `PassesSynonymTest` below, and `IsSynonym` is that test as a function value, the form
      `Filter` takes. */
  function VocabTagGuard(tag: string): (b: bool)
    ensures b
  {
    tag != "DT" || tag != "PRP"
  }

  /** Determiners and personal pronouns get no synonyms. */
  predicate IsExcludedTag(tag: string) {
    tag == "DT" || tag == "PRP"
  }

  class PredictWordsService {
    const mongoClient: MongoDbClient
    /** The tokenizer's `word_index` entries in their iteration order. */
    const wordIndex: seq<(string, int)>
    /** The part-of-speech tag of the first token the parser finds in a string. */
    const firstTag: string -> string
    /** The parser's similarity of two strings. */
    const similarity: (string, string) -> real

    constructor (mongoClient: MongoDbClient, wordIndex: seq<(string, int)>,
                 firstTag: string -> string, similarity: (string, string) -> real)
      ensures this.mongoClient == mongoClient && this.wordIndex == wordIndex
      ensures this.firstTag == firstTag && this.similarity == similarity
    {
      this.mongoClient := mongoClient;
      this.wordIndex := wordIndex;
      this.firstTag := firstTag;
      this.similarity := similarity;
    }

    /** The words of the user's rows not marked learnt (a missing flag counts as not learnt),
        in stored order. */
    function GetUserVocabulary(userId: UserId): (r: seq<string>)
      reads mongoClient
      ensures var rows := Filter(UserVocabulary(mongoClient.usersVocabulary, userId), IsNotLearnt);
              |r| == |rows| && forall i :: 0 <= i < |r| ==> r[i] == rows[i].word
      ensures |r| == Count(UserVocabulary(mongoClient.usersVocabulary, userId), IsNotLearnt)
      ensures forall w :: w in r ==>
                exists x :: x in UserVocabulary(mongoClient.usersVocabulary, userId) && IsNotLearnt(x) && x.word == w
      ensures forall x :: x in UserVocabulary(mongoClient.usersVocabulary, userId) && IsNotLearnt(x) ==> x.word in r
    {
      var rows := Filter(UserVocabulary(mongoClient.usersVocabulary, userId), IsNotLearnt);
      FilterMembers(UserVocabulary(mongoClient.usersVocabulary, userId), IsNotLearnt);
      var r := seq(|rows|, i requires 0 <= i < |rows| => rows[i].word);
      assert forall w :: w in r ==> exists k :: 0 <= k < |rows| && rows[k].word == w;
      assert forall x :: x in UserVocabulary(mongoClient.usersVocabulary, userId) && IsNotLearnt(x) ==> x.word in r by {
        forall x | x in UserVocabulary(mongoClient.usersVocabulary, userId) && IsNotLearnt(x)
          ensures x.word in r
        {
          FilterKeeps(UserVocabulary(mongoClient.usersVocabulary, userId), IsNotLearnt, x);
          var k :| 0 <= k < |rows| && rows[k] == x;
          assert r[k] == x.word;
        }
      }
      r
    }

    /** The per-word test of `find_synonyms`: the vocabulary word's tag test and a similarity
        strictly above the threshold. */
    predicate PassesSynonymTest(word: string, threshold: real, v: string) {
      VocabTagGuard(firstTag(v)) && similarity(word, v) > threshold
    }

    /** The same test, as the selection function of a filter. */
    function IsSynonym(word: string, threshold: real): string -> bool {
      v => PassesSynonymTest(word, threshold, v)
    }

    /** What `find_synonyms` returns: nothing for a determiner or personal pronoun; otherwise
        exactly the vocabulary words more similar than the threshold, in vocabulary order. */
    function SimilarWords(word: string, vocab: seq<string>, threshold: real): (r: seq<string>)
      ensures IsExcludedTag(firstTag(word)) ==> r == []
      ensures forall v :: v in r ==> v in vocab
      ensures !IsExcludedTag(firstTag(word)) ==>
                && IsSubsequence(r, vocab)
                && (forall v :: v in r ==> similarity(word, v) > threshold)
                && (forall v :: v in vocab && similarity(word, v) > threshold ==> v in r)
                && |r| == Count(vocab, IsSynonym(word, threshold))
    {
      if IsExcludedTag(firstTag(word)) then []
      else
        var r := Filter(vocab, IsSynonym(word, threshold));
        FilterMembers(vocab, IsSynonym(word, threshold));
        FilterIsSubsequence(vocab, IsSynonym(word, threshold));
        assert forall v :: v in vocab && similarity(word, v) > threshold ==> v in r by {
          forall v | v in vocab && similarity(word, v) > threshold
            ensures v in r
          {
            assert VocabTagGuard(firstTag(v));
            FilterKeeps(vocab, IsSynonym(word, threshold), v);
          }
        }
        r
    }

    /** The inner loop of `predict_next_words`: scan the word index for the first entry whose
        index is `i`. */
    method FindWord(i: int) returns (w: Option<string>)
      ensures w == LookupWord(wordIndex, i)
    {
      var k := 0;
      while k < |wordIndex|
        invariant 0 <= k <= |wordIndex|
        invariant forall j :: 0 <= j < k ==> wordIndex[j].1 != i
      {
        if wordIndex[k].1 == i {
          LookupStopsAtFirst(wordIndex, i, k);
          return Some(wordIndex[k].0);
        }
        k := k + 1;
      }
      return None;
    }

    /** The loop of `predict_next_words`: the words of the given positions, in order. */
    method WordsOfIndices(indices: seq<int>) returns (words: seq<string>)
      ensures words == WordsFor(wordIndex, indices)
    {
      words := [];
      for t := 0 to |indices|
        invariant words == WordsFor(wordIndex, indices[..t])
      {
        var i := indices[t];
        assert indices[..t + 1] == indices[..t] + [i];
        WordsForSnoc(wordIndex, indices[..t], i);
        var w := FindWord(i);
        if w.Some? {
          words := words + [w.value];
        }
      }
      assert indices[..|indices|] == indices;
    }

    /** `predict_next_words` on the network's scores: the words of the top `n` positions, best
        first, skipping positions the word index does not know. */
    method PredictNextWords(predictions: seq<real>, order: seq<int>, n: int) returns (topWords: seq<string>)
      requires IsArgsort(order, predictions)
      ensures topWords == WordsFor(wordIndex, TopIndices(order, n))
      ensures n > 0 ==> |topWords| <= n
    {
      var topIndices := TopIndices(order, n);
      topWords := WordsOfIndices(topIndices);
    }

    /** `find_synonyms`: no synonyms for a determiner or personal pronoun; otherwise one scan of
        the vocabulary. */
    method FindSynonyms(word: string, vocab: seq<string>, threshold: real) returns (synonyms: seq<string>)
      ensures synonyms == SimilarWords(word, vocab, threshold)
    {
      var wordTag := firstTag(word);
      if IsExcludedTag(wordTag) {
        return [];
      }
      synonyms := ScanSynonyms(word, vocab, threshold);
    }

    /** The scan of `find_synonyms`: keeps, in order, the vocabulary words that pass the tag
        test and are more similar to `word` than the threshold. */
    method ScanSynonyms(word: string, vocab: seq<string>, threshold: real) returns (synonyms: seq<string>)
      ensures synonyms == Filter(vocab, IsSynonym(word, threshold))
    {
      synonyms := [];
      for i := 0 to |vocab|
        invariant synonyms == Filter(vocab[..i], IsSynonym(word, threshold))
      {
        var vWord := vocab[i];
        FilterSnoc(vocab[..i], vWord, IsSynonym(word, threshold));
        assert vocab[..i + 1] == vocab[..i] + [vWord];
        if VocabTagGuard(firstTag(vWord)) && similarity(word, vWord) > threshold {
          synonyms := synonyms + [vWord];
        }
      }
      assert vocab[..|vocab|] == vocab;
    }

    /** The loop of `predict_next_words_with_synonyms`: one key per word, mapped to its
        similar words in `vocab`; a word met again keeps the same value. */
    method SynonymsOfWords(words: seq<string>, vocab: seq<string>, threshold: real)
      returns (synonymsInVocab: map<string, seq<string>>)
      ensures forall w :: w in synonymsInVocab <==> w in words
      ensures forall w :: w in synonymsInVocab ==> synonymsInVocab[w] == SimilarWords(w, vocab, threshold)
    {
      synonymsInVocab := map[];
      for i := 0 to |words|
        invariant forall w :: w in synonymsInVocab <==> w in words[..i]
        invariant forall w :: w in synonymsInVocab ==> synonymsInVocab[w] == SimilarWords(w, vocab, threshold)
      {
        var synonyms := FindSynonyms(words[i], vocab, threshold);
        assert words[..i + 1] == words[..i] + [words[i]];
        synonymsInVocab := synonymsInVocab[words[i] := synonyms];
      }
      assert words[..|words|] == words;
    }

    /** One key per suggested word, each mapped to its similar words among the user's
        not-yet-learnt vocabulary (possibly none). */
    method PredictNextWordsWithSynonyms(userId: UserId, predictions: seq<real>, order: seq<int>, n: int, threshold: real)
      returns (synonymsInVocab: map<string, seq<string>>)
      requires IsArgsort(order, predictions)
      ensures forall w :: w in synonymsInVocab <==> w in WordsFor(wordIndex, TopIndices(order, n))
      ensures forall w :: w in synonymsInVocab ==> synonymsInVocab[w] == SimilarWords(w, GetUserVocabulary(userId), threshold)
    {
      var vocabulary := GetUserVocabulary(userId);
      var topWords := PredictNextWords(predictions, order, n);
      synonymsInVocab := SynonymsOfWords(topWords, vocabulary, threshold);
    }
  }
}
