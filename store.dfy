/** The document store behind the services (dbClient/MongoDbClient.py): the reference lexicon
    (collection `vocabulary`) and the per-user vocabulary ledger (collection `users_vocabulary`),
    with the store's queries as functions over those two collections. */
module Store {
  import opened Wrappers
  import opened Seqs

  type UserId = string

  /** One row of a user's vocabulary list. The timestamp is in whole seconds. `isWordLearnt`
      is `None` when the stored row carries no `is_word_learnt` field. */
  datatype WordRecord = WordRecord(
    word: string,
    timeSeen: int,
    historySeen: int,
    historyCorrect: int,
    isWordLearnt: Option<bool>)

  /** A document of the reference lexicon. `headword` is its `Word` field; each lexical value
      is `None` when the document lacks it. */
  datatype LexicalEntry = LexicalEntry(
    headword: string,
    ageOfAcquisition: Option<real>,
    logFrequency: Option<real>,
    concreteness: Option<real>)

  /** A user's document in `users_vocabulary`; `vocabulary` is `None` when the field is absent. */
  datatype UserDoc = UserDoc(vocabulary: Option<seq<WordRecord>>)

  /** The services' notion of "not yet learnt": a missing flag counts as not learnt. */
  predicate IsNotLearnt(r: WordRecord) {
    !(r.isWordLearnt.Some? && r.isWordLearnt.value)
  }

  /** The store's notion of "learning": the flag is present and equal to false. */
  predicate IsLearning(r: WordRecord) {
    r.isWordLearnt.Some? && !r.isWordLearnt.value
  }

  /** `find_one({"Word": word})` on the lexicon: the first document whose `Word` is `word`. */
  function MainWord(mainVocabulary: seq<LexicalEntry>, word: string): (r: Option<LexicalEntry>)
    ensures r.None? <==> forall k :: 0 <= k < |mainVocabulary| ==> mainVocabulary[k].headword != word
    ensures r.Some? ==> r.value.headword == word && r.value in mainVocabulary
  {
    if mainVocabulary == [] then None
    else if mainVocabulary[0].headword == word then Some(mainVocabulary[0])
    else MainWord(mainVocabulary[1..], word)
  }

  /** The document found is the first match: every document before it has another `Word`. */
  lemma {:induction false} MainWordIsFirst(mainVocabulary: seq<LexicalEntry>, word: string, k: int)
    requires 0 <= k < |mainVocabulary| && mainVocabulary[k].headword == word
    requires forall j :: 0 <= j < k ==> mainVocabulary[j].headword != word
    ensures MainWord(mainVocabulary, word) == Some(mainVocabulary[k])
  {
    if k > 0 {
      MainWordIsFirst(mainVocabulary[1..], word, k - 1);
    }
  }

  /** The user's stored vocabulary list: empty when the user has no document or the document
      has no `vocabulary` field. */
  function UserVocabulary(users: map<UserId, UserDoc>, userId: UserId): (r: seq<WordRecord>)
    ensures userId !in users ==> r == []
    ensures userId in users && users[userId].vocabulary.None? ==> r == []
    ensures userId in users && users[userId].vocabulary.Some? ==> r == users[userId].vocabulary.value
  {
    if userId in users && users[userId].vocabulary.Some? then users[userId].vocabulary.value else []
  }

  /** The aggregation that keeps the rows whose `is_word_learnt` equals false. An unknown
      user gives an empty list; a document without a `vocabulary` field gives `None`, because
      the filter stage turns a missing input into null. */
  function UserLearningVocabulary(users: map<UserId, UserDoc>, userId: UserId): (r: Option<seq<WordRecord>>)
    ensures userId !in users ==> r == Some([])
    ensures r.None? <==> userId in users && users[userId].vocabulary.None?
    ensures r.Some? ==> forall x :: x in r.value ==> x.isWordLearnt.Some? && !x.isWordLearnt.value
    ensures r.Some? ==> IsSubsequence(r.value, UserVocabulary(users, userId))
    ensures r.Some? ==> |r.value| == Count(UserVocabulary(users, userId), IsLearning)
  {
    if userId !in users then Some([])
    else match users[userId].vocabulary
      case None => None
      case Some(vocabulary) =>
        FilterMembers(vocabulary, IsLearning);
        FilterIsSubsequence(vocabulary, IsLearning);
        Some(Filter(vocabulary, IsLearning))
  }

  /** The query `{'_user_id': user_id, 'vocabulary.word': word}` finds a document. */
  function WordExists(users: map<UserId, UserDoc>, word: string, userId: UserId): (b: bool)
    ensures b <==> exists i :: 0 <= i < |UserVocabulary(users, userId)| && UserVocabulary(users, userId)[i].word == word
  {
    userId in users && users[userId].vocabulary.Some? &&
    var vocabulary := users[userId].vocabulary.value;
    assert vocabulary == UserVocabulary(users, userId);
    exists i :: 0 <= i < |vocabulary| && vocabulary[i].word == word
  }

  /** `update_one({"_user_id": user_id}, {"$push": {"vocabulary": row}}, upsert=True)`. */
  function PushRow(users: map<UserId, UserDoc>, row: WordRecord, userId: UserId): (r: map<UserId, UserDoc>)
    ensures r.Keys == users.Keys + {userId}
    ensures forall v :: v in users && v != userId ==> r[v] == users[v]
    ensures UserVocabulary(r, userId) == UserVocabulary(users, userId) + [row]
  {
    users[userId := UserDoc(Some(UserVocabulary(users, userId) + [row]))]
  }

  /** After a push, the existence check finds the pushed word. */
  lemma PushedWordExists(users: map<UserId, UserDoc>, row: WordRecord, userId: UserId)
    ensures WordExists(PushRow(users, row, userId), row.word, userId)
  {
    var after := UserVocabulary(PushRow(users, row, userId), userId);
    assert after[|after| - 1] == row;
  }

  /** A push never removes a word: whatever existed for any user still exists. */
  lemma PushKeepsExistingWords(users: map<UserId, UserDoc>, row: WordRecord, userId: UserId, word: string, other: UserId)
    requires WordExists(users, word, other)
    ensures WordExists(PushRow(users, row, userId), word, other)
  {
    var before := UserVocabulary(users, other);
    var i :| 0 <= i < |before| && before[i].word == word;
    var after := UserVocabulary(PushRow(users, row, userId), other);
    assert after[i] == before[i];
  }

  /** The push has no duplicate guard: pushing the same row twice stores it twice. */
  lemma PushTwiceKeepsBoth(users: map<UserId, UserDoc>, row: WordRecord, userId: UserId)
    ensures UserVocabulary(PushRow(PushRow(users, row, userId), row, userId), userId)
         == UserVocabulary(users, userId) + [row, row]
  {
  }

  /** The store's learning filter selects an in-order part of the services' not-learnt filter. */
  lemma LearningWithinNotLearnt(s: seq<WordRecord>)
    ensures IsSubsequence(Filter(s, IsLearning), Filter(s, IsNotLearnt))
  {
    FilterStricter(s, IsLearning, IsNotLearnt);
  }

  /** The two filters agree exactly when every row carries the `is_word_learnt` flag; a single
      row without it is kept by the services' filter and dropped by the store's. */
  lemma FiltersAgreeIffFlagged(s: seq<WordRecord>)
    ensures Filter(s, IsLearning) == Filter(s, IsNotLearnt) <==> forall x :: x in s ==> x.isWordLearnt.Some?
  {
    if forall x :: x in s ==> x.isWordLearnt.Some? {
      FilterCongruent(s, IsLearning, IsNotLearnt);
    } else {
      var x :| x in s && x.isWordLearnt.None?;
      assert IsNotLearnt(x) && !IsLearning(x);
      CountStricter(s, IsLearning, IsNotLearnt);
    }
  }

  /** The document store: the lexicon and the per-user ledger, changed in place by pushes. */
  class MongoDbClient {
    var mainVocabulary: seq<LexicalEntry>
    var usersVocabulary: map<UserId, UserDoc>

    constructor (mainVocabulary: seq<LexicalEntry>, usersVocabulary: map<UserId, UserDoc>)
      ensures this.mainVocabulary == mainVocabulary && this.usersVocabulary == usersVocabulary
    {
      this.mainVocabulary := mainVocabulary;
      this.usersVocabulary := usersVocabulary;
    }

    /** Appends `row` to the user's list, creating the document or the field when absent. */
    method AddWordToUserVocabulary(row: WordRecord, userId: UserId)
      modifies this
      ensures mainVocabulary == old(mainVocabulary)
      ensures usersVocabulary == PushRow(old(usersVocabulary), row, userId)
      ensures UserVocabulary(usersVocabulary, userId) == UserVocabulary(old(usersVocabulary), userId) + [row]
      ensures forall v :: v != userId ==> UserVocabulary(usersVocabulary, v) == UserVocabulary(old(usersVocabulary), v)
      ensures WordExists(usersVocabulary, row.word, userId)
    {
      PushedWordExists(usersVocabulary, row, userId);
      usersVocabulary := PushRow(usersVocabulary, row, userId);
    }
  }
}
