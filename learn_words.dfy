/** The relearning pipeline (services/LearnWordsService.py): read a user's not-yet-learnt rows,
    turn each into a feature vector with the lexicon's data, let the classifier mark which
    ones are forgotten, and keep those; plus saving a new word only when it is absent. */
module LearnWords {
  import opened Wrappers
  import opened Seqs
  import opened Store
  import opened Classifier

  /** One prepared word: the six features, the forgotten mark and the class-1 probability. */
  datatype Entry = Entry(word: string, feature: seq<real>, isForgotten: bool, probability: real)

  /** Why preparing a row raises: the lexicon has no document for the word (an attribute
      lookup on `None`), or the document lacks one of the three lexical values (`float(None)`). */
  datatype PrepareError =
    | NoLexicalEntry(word: string)
    | MissingLexicalValue(word: string, field: string)

  function Abs(x: int): nat {
    if x < 0 then -x else x
  }

  /** Elapsed seconds as days rounded to three decimals, counted in thousandths of a day:
      the nearest thousandth, a tie going to the even one. An exact number of thousandths is
      kept as it is. */
  function RoundedThousandths(elapsed: int, secondsInDay: int): (t: int)
    requires secondsInDay > 0
    ensures 2 * Abs(t * secondsInDay - 1000 * elapsed) <= secondsInDay
    ensures 2 * Abs(t * secondsInDay - 1000 * elapsed) == secondsInDay ==> t % 2 == 0
    ensures (1000 * elapsed) % secondsInDay == 0 ==> t * secondsInDay == 1000 * elapsed
  {
    var q := (1000 * elapsed) / secondsInDay;
    var rem := (1000 * elapsed) % secondsInDay;
    assert q * secondsInDay + rem == 1000 * elapsed;
    assert (q + 1) * secondsInDay == q * secondsInDay + secondsInDay;
    if 2 * rem < secondsInDay || (2 * rem == secondsInDay && q % 2 == 0) then q else q + 1
  }

  /** A whole number of thousandths of a day rounds to itself. */
  lemma ExactThousandths(elapsed: int, secondsInDay: int, k: int)
    requires secondsInDay > 0 && 1000 * elapsed == k * secondsInDay
    ensures RoundedThousandths(elapsed, secondsInDay) == k
  {
    var t := RoundedThousandths(elapsed, secondsInDay);
    var d := t - k;
    assert t * secondsInDay - 1000 * elapsed == d * secondsInDay by {
      assert t * secondsInDay == (d + k) * secondsInDay == d * secondsInDay + k * secondsInDay;
    }
    if d != 0 {
      MultipleAtLeastDivisor(d, secondsInDay);
    }
  }

  lemma MultipleAtLeastDivisor(d: int, n: int)
    requires d != 0 && n > 0
    ensures Abs(d * n) >= n
  {
    if d > 0 {
      assert d * n == (d - 1) * n + n;
      assert (d - 1) * n >= 0;
    } else {
      assert d * n == (d + 1) * n - n;
      assert (d + 1) * n <= 0;
    }
  }

  /** The lexicon document for the row's word lacks none of the three lexical values. */
  predicate HasLexicalValues(e: LexicalEntry) {
    e.ageOfAcquisition.Some? && e.logFrequency.Some? && e.concreteness.Some?
  }

  /** One row of `prepare_words_for_log_model`: the feature vector is
      [days since last seen, correct answers, wrong answers, age of acquisition, log frequency,
      concreteness], the entry starts out forgotten with probability -1. */
  function PrepareEntry(mainVocabulary: seq<LexicalEntry>, rec: WordRecord, now: int, secondsInDay: int): (r: Result<Entry, PrepareError>)
    requires secondsInDay > 0
    ensures MainWord(mainVocabulary, rec.word).None? <==> r == Failure(NoLexicalEntry(rec.word))
    ensures r.Success? <==> MainWord(mainVocabulary, rec.word).Some? && HasLexicalValues(MainWord(mainVocabulary, rec.word).value)
    ensures r.Failure? ==> r.error.word == rec.word
    ensures r.Failure? && r.error.MissingLexicalValue? ==>
              var e := MainWord(mainVocabulary, rec.word).value;
              || (r.error.field == "Age_Of_Acquisition" && e.ageOfAcquisition.None?)
              || (r.error.field == "Log_Freq_HAL" && e.ageOfAcquisition.Some? && e.logFrequency.None?)
              || (r.error.field == "Concreteness_Rating" && e.ageOfAcquisition.Some? && e.logFrequency.Some? && e.concreteness.None?)
    ensures r.Success? ==>
              var e := MainWord(mainVocabulary, rec.word).value;
              && r.value.word == rec.word
              && r.value.isForgotten
              && r.value.probability == -1.0
              && |r.value.feature| == 6
              && r.value.feature[0] * 1000.0 == RoundedThousandths(now - rec.timeSeen, secondsInDay) as real
              && r.value.feature[1] == rec.historyCorrect as real
              && r.value.feature[1] + r.value.feature[2] == rec.historySeen as real
              && r.value.feature[3..] == [e.ageOfAcquisition.value, e.logFrequency.value, e.concreteness.value]
  {
    match MainWord(mainVocabulary, rec.word)
    case None => Failure(NoLexicalEntry(rec.word))
    case Some(e) =>
      if e.ageOfAcquisition.None? then Failure(MissingLexicalValue(rec.word, "Age_Of_Acquisition"))
      else if e.logFrequency.None? then Failure(MissingLexicalValue(rec.word, "Log_Freq_HAL"))
      else if e.concreteness.None? then Failure(MissingLexicalValue(rec.word, "Concreteness_Rating"))
      else
        var deltaDays := RoundedThousandths(now - rec.timeSeen, secondsInDay) as real / 1000.0;
        var historyWrong := rec.historySeen - rec.historyCorrect;
        Success(Entry(
          rec.word,
          [deltaDays, rec.historyCorrect as real, historyWrong as real,
           e.ageOfAcquisition.value, e.logFrequency.value, e.concreteness.value],
          true,
          -1.0))
  }

  /** Row `i` is the first row of `words` whose preparation fails, and it fails with `error`. */
  predicate FirstFailure(mainVocabulary: seq<LexicalEntry>, words: seq<WordRecord>, now: int, secondsInDay: int, i: int, error: PrepareError)
    requires secondsInDay > 0
  {
    && 0 <= i < |words|
    && PrepareEntry(mainVocabulary, words[i], now, secondsInDay) == Failure(error)
    && forall j :: 0 <= j < i ==> PrepareEntry(mainVocabulary, words[j], now, secondsInDay).Success?
  }

  /** The whole list: one entry per row, in order, or the error of the first row that fails. */
  function PreparedWords(mainVocabulary: seq<LexicalEntry>, words: seq<WordRecord>, now: int, secondsInDay: int): (r: Result<seq<Entry>, PrepareError>)
    requires secondsInDay > 0
    ensures r.Success? <==> forall i :: 0 <= i < |words| ==> PrepareEntry(mainVocabulary, words[i], now, secondsInDay).Success?
    ensures r.Success? ==> (|r.value| == |words| &&
              forall i :: 0 <= i < |words| ==> PrepareEntry(mainVocabulary, words[i], now, secondsInDay) == Success(r.value[i]))
    ensures r.Failure? ==> exists i :: FirstFailure(mainVocabulary, words, now, secondsInDay, i, r.error)
  {
    if words == [] then Success([])
    else match PrepareEntry(mainVocabulary, words[0], now, secondsInDay)
      case Failure(e) =>
        assert FirstFailure(mainVocabulary, words, now, secondsInDay, 0, e);
        Failure(e)
      case Success(entry) =>
        match PreparedWords(mainVocabulary, words[1..], now, secondsInDay)
        case Failure(e) =>
          var i :| FirstFailure(mainVocabulary, words[1..], now, secondsInDay, i, e);
          assert FirstFailure(mainVocabulary, words, now, secondsInDay, i + 1, e);
          Failure(e)
        case Success(rest) =>
          var entries := [entry] + rest;
          assert forall i :: 0 < i < |words| ==> words[i] == words[1..][i - 1] && entries[i] == rest[i - 1];
          Success(entries)
  }

  /** The list's error is the error of its first failing row. */
  lemma PreparedWordsFirstFailure(mainVocabulary: seq<LexicalEntry>, words: seq<WordRecord>, now: int, secondsInDay: int, i: int)
    requires secondsInDay > 0 && 0 <= i < |words|
    requires PrepareEntry(mainVocabulary, words[i], now, secondsInDay).Failure?
    requires forall j :: 0 <= j < i ==> PrepareEntry(mainVocabulary, words[j], now, secondsInDay).Success?
    ensures PreparedWords(mainVocabulary, words, now, secondsInDay) == Failure(PrepareEntry(mainVocabulary, words[i], now, secondsInDay).error)
  {
    var r := PreparedWords(mainVocabulary, words, now, secondsInDay);
    assert r.Failure?;
    var i0 :| FirstFailure(mainVocabulary, words, now, secondsInDay, i0, r.error);
    assert i0 == i;
  }

  /** On success every entry carries its row's word, in the same order, and starts out
      forgotten with probability -1. */
  lemma PreparedWordsKeepOrder(mainVocabulary: seq<LexicalEntry>, words: seq<WordRecord>, now: int, secondsInDay: int)
    requires secondsInDay > 0
    requires PreparedWords(mainVocabulary, words, now, secondsInDay).Success?
    ensures var entries := PreparedWords(mainVocabulary, words, now, secondsInDay).value;
            |entries| == |words| &&
            forall i :: 0 <= i < |words| ==>
              entries[i].word == words[i].word && entries[i].isForgotten && entries[i].probability == -1.0
  {
    var entries := PreparedWords(mainVocabulary, words, now, secondsInDay).value;
    forall i | 0 <= i < |words|
      ensures entries[i].word == words[i].word && entries[i].isForgotten && entries[i].probability == -1.0
    {
      assert PrepareEntry(mainVocabulary, words[i], now, secondsInDay) == Success(entries[i]);
    }
  }

  /** A row ten whole days old, seen five times and answered correctly five times, with
      lexical values 5.0, 2.0 and 3.0, gives the vector [10.0, 5, 0, 5.0, 2.0, 3.0]. */
  lemma TenDaysExample(now: int, secondsInDay: int)
    requires secondsInDay > 0
    ensures PrepareEntry([LexicalEntry("apple", Some(5.0), Some(2.0), Some(3.0))],
                         WordRecord("apple", now - 10 * secondsInDay, 5, 5, None), now, secondsInDay)
         == Success(Entry("apple", [10.0, 5.0, 0.0, 5.0, 2.0, 3.0], true, -1.0))
  {
    ExactThousandths(now - (now - 10 * secondsInDay), secondsInDay, 10000);
  }

  /** The feature rows handed to the classifier, in entry order. */
  function Features(entries: seq<Entry>): (xs: seq<seq<real>>)
    ensures |xs| == |entries|
    ensures forall i :: 0 <= i < |entries| ==> xs[i] == entries[i].feature
  {
    seq(|entries|, i requires 0 <= i < |entries| => entries[i].feature)
  }

  /** The entries after the classifier's output is written back: same words and features,
      the row's probability, and forgotten exactly when the class is 0. */
  function Annotated(entries: seq<Entry>, predictions: seq<Prediction>): (r: seq<Entry>)
    requires |predictions| == |entries|
    ensures |r| == |entries|
    ensures forall i :: 0 <= i < |entries| ==>
              r[i].word == entries[i].word && r[i].feature == entries[i].feature &&
              r[i].probability == predictions[i].probability &&
              (r[i].isForgotten <==> predictions[i].cls == 0)
  {
    seq(|entries|, i requires 0 <= i < |entries| =>
      entries[i].(probability := predictions[i].probability, isForgotten := predictions[i].cls == 0))
  }

  predicate IsForgotten(e: Entry) {
    e.isForgotten
  }

  /** The entries marked forgotten, in their original order, none dropped. */
  function ForgottenEntries(entries: seq<Entry>): (r: seq<Entry>)
    ensures forall e :: e in r ==> e in entries && e.isForgotten
    ensures IsSubsequence(r, entries)
    ensures |r| == Count(entries, IsForgotten)
  {
    FilterMembers(entries, IsForgotten);
    FilterIsSubsequence(entries, IsForgotten);
    Filter(entries, IsForgotten)
  }

  /** Every entry the relearn batch keeps was scored below the classifier's threshold. */
  lemma SelectedBelowThreshold(m: LogWordModel, entries: seq<Entry>)
    requires m.ScaleNonZero()
    requires m.PredictClass(Features(entries)).Success?
    ensures forall e :: e in ForgottenEntries(Annotated(entries, m.PredictClass(Features(entries)).value)) ==>
              e.probability < m.threshold
  {
    var predictions := m.PredictClass(Features(entries)).value;
    var annotated := Annotated(entries, predictions);
    forall e | e in ForgottenEntries(annotated)
      ensures e.probability < m.threshold
    {
      var k :| 0 <= k < |annotated| && annotated[k] == e;
      assert predictions[k].cls == 0;
    }
  }

  /** The service over the store and the classifier, both loaded once. */
  class LearnWordsService {
    const mongoClient: MongoDbClient
    const logWordModel: LogWordModel

    constructor (mongoClient: MongoDbClient, logWordModel: LogWordModel)
      ensures this.mongoClient == mongoClient && this.logWordModel == logWordModel
    {
      this.mongoClient := mongoClient;
      this.logWordModel := logWordModel;
    }

    /** The user's rows that are not marked learnt (a missing flag counts as not learnt), in
        stored order. */
    function GetUserVocabulary(userId: UserId): (r: seq<WordRecord>)
      reads mongoClient
      ensures forall x :: x in r ==> IsNotLearnt(x)
      ensures IsSubsequence(r, UserVocabulary(mongoClient.usersVocabulary, userId))
      ensures |r| == Count(UserVocabulary(mongoClient.usersVocabulary, userId), IsNotLearnt)
    {
      FilterMembers(UserVocabulary(mongoClient.usersVocabulary, userId), IsNotLearnt);
      FilterIsSubsequence(UserVocabulary(mongoClient.usersVocabulary, userId), IsNotLearnt);
      Filter(UserVocabulary(mongoClient.usersVocabulary, userId), IsNotLearnt)
    }

    /** Builds one entry per row, looking each word up in the lexicon; stops at the first row
        whose lexical data is missing. */
    method PrepareWordsForLogModel(wordsList: seq<WordRecord>, now: int, secondsInDay: int)
      returns (r: Result<seq<Entry>, PrepareError>)
      requires secondsInDay > 0
      ensures r == PreparedWords(mongoClient.mainVocabulary, wordsList, now, secondsInDay)
    {
      var resultArray: seq<Entry> := [];
      for i := 0 to |wordsList|
        invariant |resultArray| == i
        invariant forall k :: 0 <= k < i ==>
                    PrepareEntry(mongoClient.mainVocabulary, wordsList[k], now, secondsInDay) == Success(resultArray[k])
      {
        var entry := PrepareEntry(mongoClient.mainVocabulary, wordsList[i], now, secondsInDay);
        if entry.Failure? {
          PreparedWordsFirstFailure(mongoClient.mainVocabulary, wordsList, now, secondsInDay, i);
          return Failure(entry.error);
        }
        resultArray := resultArray + [entry.value];
      }
      ghost var expected := PreparedWords(mongoClient.mainVocabulary, wordsList, now, secondsInDay);
      assert expected.Success?;
      assert expected.value == resultArray;
      r := Success(resultArray);
    }

    /** Classifies every entry, writes probability and forgotten mark back into the caller's
        entries, and returns the forgotten ones in order. A batch the classifier rejects leaves
        the entries untouched. */
    method GetWordsToLearn(wordsArray: array<Entry>) returns (r: Result<seq<Entry>, ModelError>)
      requires logWordModel.ScaleNonZero()
      modifies wordsArray
      ensures var p := logWordModel.PredictClass(Features(old(wordsArray[..])));
              if p.Failure? then r == Failure(p.error) && wordsArray[..] == old(wordsArray[..])
              else wordsArray[..] == Annotated(old(wordsArray[..]), p.value) &&
                   r == Success(ForgottenEntries(wordsArray[..]))
    {
      var featureArray := Features(wordsArray[..]);
      var myPredictions := logWordModel.PredictClass(featureArray);
      if myPredictions.Failure? {
        return Failure(myPredictions.error);
      }
      var predictions := myPredictions.value;
      ghost var before := wordsArray[..];
      for i := 0 to |predictions|
        invariant forall k :: 0 <= k < i ==>
                    wordsArray[k] == before[k].(probability := predictions[k].probability, isForgotten := predictions[k].cls == 0)
        invariant forall k :: i <= k < wordsArray.Length ==> wordsArray[k] == before[k]
      {
        wordsArray[i] := wordsArray[i].(probability := predictions[i].probability, isForgotten := predictions[i].cls == 0);
      }
      assert wordsArray[..] == Annotated(before, predictions);
      r := Success(ForgottenEntries(wordsArray[..]));
    }

    /** Adds the row only when the user's list has no row with that word; reports whether it
        was added. */
    method SaveWordToUserVocabulary(row: WordRecord, userId: UserId) returns (saved: bool)
      modifies mongoClient
      ensures saved == !WordExists(old(mongoClient.usersVocabulary), row.word, userId)
      ensures mongoClient.mainVocabulary == old(mongoClient.mainVocabulary)
      ensures mongoClient.usersVocabulary ==
                if saved then PushRow(old(mongoClient.usersVocabulary), row, userId)
                else old(mongoClient.usersVocabulary)
      ensures WordExists(mongoClient.usersVocabulary, row.word, userId)
    {
      var wordExists := WordExists(mongoClient.usersVocabulary, row.word, userId);
      if !wordExists {
        mongoClient.AddWordToUserVocabulary(row, userId);
        saved := true;
      } else {
        saved := false;
      }
    }
  }

  /** Saving the same word twice: the second call reports false and changes nothing. */
  method SaveTwice(service: LearnWordsService, row: WordRecord, userId: UserId) returns (first: bool, second: bool)
    modifies service.mongoClient
    ensures first == !WordExists(old(service.mongoClient.usersVocabulary), row.word, userId)
    ensures !second
    ensures service.mongoClient.usersVocabulary ==
              if first then PushRow(old(service.mongoClient.usersVocabulary), row, userId)
              else old(service.mongoClient.usersVocabulary)
  {
    first := service.SaveWordToUserVocabulary(row, userId);
    second := service.SaveWordToUserVocabulary(row, userId);
  }
}
