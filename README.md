# Word relearning and next-word suggestion (nwp-app), modelled in Dafny

This project models the back end of a vocabulary-learning app. The app has four parts:

- **The document store** (`dbClient/MongoDbClient.py`) holds two collections.
  - The reference lexicon (`vocabulary`) stores each word's age of acquisition, log frequency and concreteness rating.
  - The per-user ledger (`users_vocabulary`) stores, for each user, the words seen so far with their history.
- **The relearning service** (`services/LearnWordsService.py`) works in four steps:
  1. It reads a user's rows that are not marked learnt.
  2. It turns each row into a six-value feature vector.
  3. It lets the classifier mark each word forgotten or not.
  4. It returns the forgotten ones.

  It also saves a new word only when the user's list does not hold it yet.
- **The classifier** (`models/logWordModel.py`) has a standard scaler and a logistic regression. It compares the class-1 probability with a tuned threshold.
- **The suggestion service** (`services/PredictWordsService.py`) works in three steps:
  1. It picks the best-scoring positions of a language model's output.
  2. It maps them back to words through the tokenizer's word index.
  3. For each suggested word, it lists the similar words among the user's not-yet-learnt vocabulary.

## Modules

| File | Module | What it holds |
|---|---|---|
| `wrappers.dfy` | `Wrappers` | `Option` and `Result` |
| `seqs.dfy` | `Seqs` | Order-preserving selection (`Filter`, `Count`, `IsSubsequence`) and `Reverse`. These give the meaning of the list comprehensions and of the store's `$filter` stage. |
| `store.dfy` | `Store` | The store's records and queries, as functions over the two collections. Class `MongoDbClient` holds the collections and changes them by the push with upsert. |
| `classifier.dfy` | `Classifier` | The scaler transform, the decision value and the threshold rule. Class `LogWordModel` has its parameter fields and the prediction functions. |
| `learn_words.dfy` | `LearnWords` | The relearning pipeline. Class `LearnWordsService` has the loop that builds the feature vectors and the in-place write-back of the classifier's output. |
| `predict_words.dfy` | `PredictWords` | The suggestion pipeline. Class `PredictWordsService` has the nested loops of `predict_next_words`, the synonym scan and the map of suggestions. |

## How the model represents the app

**Store**
- The lexicon is a sequence of `LexicalEntry` values. Each lexical value is an `Option`, because a document may lack it.
- The ledger is a `map` from user id to `UserDoc`. A document's `vocabulary` field is an `Option`, because the field may be absent.
- The two filters differ on rows that have no `is_word_learnt` flag:
  - The services treat a missing flag as "not learnt" (`IsNotLearnt`).
  - The store's aggregation keeps only rows whose flag equals false (`IsLearning`).

  `FiltersAgreeIffFlagged` proves that the two filters agree exactly when every row carries the flag.

**Relearning**
- Preparing a row fails when the lexicon has no document for the word, or when that document lacks a lexical value. The code raises in both cases. The model returns a `PrepareError` instead.
- The three lexical values are checked in the order the code converts them: age of acquisition, log frequency, concreteness. The error names the first one missing.
- The list fails with the error of its first failing row.
- Days since the word was last seen are kept as an integer number of thousandths of a day. The exact elapsed time is rounded to the nearest thousandth, and a tie goes to the even one. This tie rule is the model's own. Python rounds the float quotient, and that can break a tie the other way.

**Classifier**
- The logistic function is the abstract field `sigmoid`. The scaling, the decision value `intercept + coefficients · x` and the threshold rule are exact over the reals.
- scikit-learn's input checks become errors in the result:
  - an empty batch gives `EmptyBatch`;
  - a row whose length does not match the parameters gives `ShapeMismatch`.

**Suggestions**
- The language model's output is the input `predictions`. Its argsort is the input `order`, and `IsArgsort` ties it to `predictions`.
- The tokenizer's `word_index` is a sequence of (word, index) pairs in iteration order.
- spaCy's first-token tag and its similarity are the abstract fields `firstTag` and `similarity`.
- The tag test on vocabulary words is `tag != 'DT' or tag != 'PRP'`. No tag fails it, so it never excludes a word. `VocabTagGuard` proves this, and `SimilarWords` keeps every vocabulary word more similar than the threshold.

## Model

| member | source | states |
|---|---|---|
| Store.IsNotLearnt | services/LearnWordsService.py:23 | The services' row test: true unless the row carries `is_word_learnt` set to true, so a missing flag counts as not learnt. |
| Store.IsLearning | dbClient/MongoDbClient.py:39 | The store's `$eq` condition: true only when the row carries `is_word_learnt` and it is false. |
| Store.MainWord | dbClient/MongoDbClient.py:21-24 | The lookup by `Word` finds nothing exactly when no lexicon document has that headword. Otherwise it returns a document of the lexicon with that headword. |
| Store.MainWordIsFirst | dbClient/MongoDbClient.py:22 | When several documents share the headword, the lookup returns the first one. |
| Store.UserVocabulary | dbClient/MongoDbClient.py:26-29 | Returns `[]` for a user with no document and for a document without a `vocabulary` field. Otherwise returns the stored list. |
| Store.UserLearningVocabulary | dbClient/MongoDbClient.py:31-51 | Returns an empty list for an unknown user, and null exactly when the document has no `vocabulary` field. Otherwise returns an in-order sublist of the user's rows whose flag is present and false, with exactly as many rows as satisfy that. |
| Store.WordExists | dbClient/MongoDbClient.py:53-60 | True exactly when some row in the user's list has that word. |
| Store.PushRow | dbClient/MongoDbClient.py:62-63 | The user's list becomes the old list plus the row at the end. The user's document is created if absent. Every other user's document is unchanged. |
| Store.PushedWordExists | dbClient/MongoDbClient.py:53-63 | After a push, the existence check finds the pushed word. |
| Store.PushKeepsExistingWords | dbClient/MongoDbClient.py:62-63 | A push never makes any user's existing word disappear. |
| Store.PushTwiceKeepsBoth | dbClient/MongoDbClient.py:63 | There is no duplicate guard: pushing the same row twice leaves two copies at the end. |
| Store.LearningWithinNotLearnt | dbClient/MongoDbClient.py:36-40 | The store's learning filter selects an in-order part of the services' not-learnt filter. |
| Store.FiltersAgreeIffFlagged | services/LearnWordsService.py:23 | The services' filter and the store's filter give the same list if and only if every row carries the `is_word_learnt` flag. |
| Store.MongoDbClient.constructor | dbClient/MongoDbClient.py:6-14 | The client starts with the given lexicon and ledger. |
| Store.MongoDbClient.AddWordToUserVocabulary | dbClient/MongoDbClient.py:62-63 | In place: the ledger becomes the push of the row. The user's list gains the row at the end, other users' lists and the lexicon are unchanged, and the word then exists for the user. |
| Seqs.Filter | services/LearnWordsService.py:77 | The selection has exactly as many elements as satisfy the test. |
| Seqs.FilterMembers | services/LearnWordsService.py:77 | Every selected element comes from the input and satisfies the test. |
| Seqs.FilterIsSubsequence | services/LearnWordsService.py:77 | The selection keeps the input's order. |
| Seqs.FilterKeeps | services/LearnWordsService.py:77 | No element that satisfies the test is dropped. |
| Seqs.FilterSnoc | services/PredictWordsService.py:47-50 | Extending the input by one element extends the selection by that element exactly when it passes. This is the step of an appending loop. |
| Seqs.FilterCongruent | services/LearnWordsService.py:23 | Two tests that agree on every element select the same list. |
| Seqs.FilterStricter | services/LearnWordsService.py:23 | A stricter test selects an in-order part of what a looser test selects. |
| Seqs.CountStricter | services/LearnWordsService.py:23 | A stricter test selects no more elements, and strictly fewer when some element passes only the looser one. |
| Seqs.Reverse | services/PredictWordsService.py:31 | `[::-1]`: same length, element `i` is element `len-1-i` of the input. |
| Classifier.StandardizeRow | models/logWordModel.py:35 | `(x - mean) / scale` elementwise. Multiplying back by `scale` and adding `mean` gives the input row. |
| Classifier.ClassOf | models/logWordModel.py:37 | The class is 0 or 1, and it is 1 if and only if the probability is at least the threshold. |
| Classifier.ThresholdConsistent | models/logWordModel.py:37 | A probability at least as high as one classed 1 is also classed 1. |
| Classifier.LogWordModel.constructor | models/logWordModel.py:12-16 | After construction, the fields hold the loaded parameters and the classes are `[0, 1]`. |
| Classifier.LogWordModel.LoadModel | models/logWordModel.py:18-27 | In place: mean, scale, intercept, coefficients and threshold equal the artifacts' values, and the classes are fixed to `[0, 1]`. |
| Classifier.LogWordModel.PredictProbability | models/logWordModel.py:29-32 | Rejects an empty batch with `EmptyBatch` and a non-empty batch with mis-sized rows with `ShapeMismatch`. Otherwise returns one value per row: the sigmoid of the row's decision value, with no scaling. |
| Classifier.LogWordModel.PredictClass | models/logWordModel.py:34-39 | Succeeds exactly for a non-empty batch whose rows match the parameter lengths, and gives one prediction per row. An empty batch fails with `EmptyBatch`, and any other failure is `ShapeMismatch`. Each row's probability is the sigmoid of the decision value of the row standardized once. Its class is 0 or 1, and 1 exactly when the probability reaches the threshold. |
| Classifier.RowsIndependent | models/logWordModel.py:34-39 | A row's prediction within a batch equals its prediction alone. |
| Classifier.ZeroCoefficientsOneClass | models/logWordModel.py:29-37 | With all-zero coefficients, every row gets the intercept's probability, so the whole batch falls in one class. |
| LearnWords.RoundedThousandths | services/LearnWordsService.py:51 | The result is within half a thousandth of a day of the exact elapsed time. A tie rounds to an even number of thousandths, and an exact number of thousandths is kept. |
| LearnWords.ExactThousandths | services/LearnWordsService.py:51 | An elapsed time of exactly `k` thousandths of a day rounds to `k`. |
| LearnWords.PrepareEntry | services/LearnWordsService.py:38-64 | A failure names the row's word. A missing lexicon document gives `NoLexicalEntry`. Otherwise a failure is `MissingLexicalValue` naming the first missing field, in the order age of acquisition, log frequency, concreteness. Success happens exactly when the document and all three values exist. The vector is then [rounded days, correct, seen − correct, aoa, freq, concreteness], with the word kept, forgotten true and probability −1. |
| LearnWords.PreparedWords | services/LearnWordsService.py:32-66 | Succeeds exactly when every row can be prepared. The entries then correspond one-to-one and in order to the rows. A failure carries the error of a row that is the first failing row. |
| LearnWords.PreparedWordsFirstFailure | services/LearnWordsService.py:37-56 | The list's error is the error of its first failing row. |
| LearnWords.PreparedWordsKeepOrder | services/LearnWordsService.py:58-64 | On success, entry `i` carries row `i`'s word, starts forgotten, and has probability −1. |
| LearnWords.TenDaysExample | services/LearnWordsService.py:46-60 | A row exactly ten days old, seen 5 times with 5 correct, gives `[10.0, 5, 0, aoa, freq, con]`. |
| LearnWords.Features | services/LearnWordsService.py:69 | One feature row per entry, in order: the entry's vector. |
| LearnWords.Annotated | services/LearnWordsService.py:73-75 | Same length. Each entry keeps its word and vector, takes its row's probability, and is forgotten if and only if the class is 0. |
| LearnWords.ForgottenEntries | services/LearnWordsService.py:77-79 | The forgotten entries in their original order, each from the input. As many as are marked forgotten, so none is dropped and nothing is truncated. |
| LearnWords.SelectedBelowThreshold | services/LearnWordsService.py:71-77 | Every entry returned for relearning was scored below the classifier's threshold. |
| LearnWords.LearnWordsService.constructor | services/LearnWordsService.py:11-13 | The service holds the given store client and classifier. |
| LearnWords.LearnWordsService.GetUserVocabulary | services/LearnWordsService.py:20-25 | An in-order sublist of the user's rows. None is marked learnt, and there are as many as the rows not marked learnt, with a missing flag counting as not learnt. |
| LearnWords.LearnWordsService.PrepareWordsForLogModel | services/LearnWordsService.py:32-66 | The appending loop returns exactly `PreparedWords` over the store's lexicon. |
| LearnWords.LearnWordsService.GetWordsToLearn | services/LearnWordsService.py:68-79 | In place on the caller's entries. If the classifier rejects the batch, the error is returned and the entries are unchanged. Otherwise the entries become `Annotated` with the predictions, and the result is their forgotten subsequence. |
| LearnWords.LearnWordsService.SaveWordToUserVocabulary | services/LearnWordsService.py:81-88 | Returns true exactly when the word was absent. The ledger is then the push of the row; otherwise it is unchanged. The word exists afterwards either way. |
| LearnWords.SaveTwice | services/LearnWordsService.py:81-88 | Saving the same row twice: the second call returns false, and the ledger holds at most one new copy. |
| PredictWords.IsArgsort | services/PredictWordsService.py:31 | What `np.argsort(predictions)` returns: a list as long as the scores, each position exactly once, in ascending order of score. |
| PredictWords.SliceStart | services/PredictWordsService.py:31 | Where `a[-n:]` starts: within the list; `len - n` (or 0) for a positive `n`; `-n` (or `len`, when `-n` exceeds it) for `n ≤ 0`, so `n = 0` starts at 0. |
| PredictWords.SliceTopIndices | services/PredictWordsService.py:31 | The code's `argsort[-n:][::-1]` as written: the positions from the slice start to the end of the argsort, best first. |
| PredictWords.ZeroCountTakesAll | services/PredictWordsService.py:31 | As written, `n = 0` selects every position, best first. |
| PredictWords.NegativeCountDropsLowest | services/PredictWordsService.py:31 | As written, a negative `n` with `-n` at most the length selects every position except the `-n` lowest-scoring ones, best first. |
| PredictWords.TopIndices | services/PredictWordsService.py:31 | For a positive `n`, the code's slice: `min(n, len)` positions, the last ones of the argsort in reverse. None for `n ≤ 0`. |
| PredictWords.TopIndicesAreBest | services/PredictWordsService.py:31 | The selected positions are valid and distinct, in descending score order. No position left out scores higher than a selected one. |
| PredictWords.LookupWord | services/PredictWordsService.py:34-37 | Nothing exactly when no word-index entry has that index. Otherwise the word of the first entry with that index. |
| PredictWords.LookupStopsAtFirst | services/PredictWordsService.py:34-37 | The entry where the scan breaks is the lookup's answer. |
| PredictWords.WordsFor | services/PredictWordsService.py:32-37 | At most one word per position. |
| PredictWords.WordsForFound | services/PredictWordsService.py:33-37 | Every word returned is the word-index entry of one of the positions. |
| PredictWords.WordsForComplete | services/PredictWordsService.py:33-37 | The result has exactly one word per position the word index knows, so unknown positions are the only ones skipped. When every position is known, there is one word per position. |
| PredictWords.WordsForSnoc | services/PredictWordsService.py:33-37 | One more position appends its word, if any, at the end. |
| PredictWords.VocabTagGuard | services/PredictWordsService.py:49 | `tag != 'DT' or tag != 'PRP'` holds for every tag. |
| PredictWords.IsExcludedTag | services/PredictWordsService.py:43 | The query word's early-return test: its first tag is DT or PRP. |
| PredictWords.PredictWordsService.constructor | services/PredictWordsService.py:12-17 | The service holds the given store client, word index, tagger and similarity. |
| PredictWords.PredictWordsService.GetUserVocabulary | services/PredictWordsService.py:19-24 | Word `i` is the word of the `i`-th row not marked learnt, in stored order, with a missing flag counting as not learnt. As many words as such rows. Every word comes from such a row, and every such row's word is present. |
| PredictWords.PredictWordsService.SimilarWords | services/PredictWordsService.py:41-51 | A query word tagged DT or PRP gets nothing. Otherwise the result is an in-order sublist of the vocabulary containing exactly the words more similar than the threshold. |
| PredictWords.PredictWordsService.PassesSynonymTest | services/PredictWordsService.py:49 | The per-word test of the synonym scan: the vocabulary word's tag guard, which every tag passes, and a similarity to the query word strictly above the threshold. |
| PredictWords.PredictWordsService.FindWord | services/PredictWordsService.py:34-37 | The inner scan returns `LookupWord` for the position. |
| PredictWords.PredictWordsService.WordsOfIndices | services/PredictWordsService.py:32-37 | The outer loop returns `WordsFor` of the positions. |
| PredictWords.PredictWordsService.PredictNextWords | services/PredictWordsService.py:26-39 | Returns the words of `TopIndices`, best first, and at most `n` of them. |
| PredictWords.PredictWordsService.FindSynonyms | services/PredictWordsService.py:41-51 | Returns exactly `SimilarWords`. |
| PredictWords.PredictWordsService.ScanSynonyms | services/PredictWordsService.py:46-51 | The appending loop returns the filter of the vocabulary by the synonym test. |
| PredictWords.PredictWordsService.SynonymsOfWords | services/PredictWordsService.py:56-60 | One key per word. Each key maps to its `SimilarWords` in the vocabulary. |
| PredictWords.PredictWordsService.PredictNextWordsWithSynonyms | services/PredictWordsService.py:53-62 | The keys are exactly the suggested words. Each maps to its similar words among the user's not-yet-learnt vocabulary, possibly none. |

## Left out

- `main.py` is not part of this model. It covers the HTTP routes, request parsing, process setup and an older copy of the suggestion helpers.
- The store connection, environment variables, and the aggregation and cursor mechanics are replaced by the collections' values (`dbClient/MongoDbClient.py:6-14, 46-51`).
- A user with several documents is not modelled. The ledger holds one document per user id.
- `get_main_vocabulary` and `LearnWordsService.get_user_learning_vocabulary` only pass results through. The lexicon is the field `MongoDbClient.mainVocabulary`, and the learning query is `Store.UserLearningVocabulary`.
- The check-then-insert race in `save_word_to_user_vocabulary` is a concurrency matter. The model has one sequential caller.
- Loading the parameters from files is I/O, and so are the swapped file-name constants. The artifacts' contents are constructor parameters.
- `Classifier.LogWordModel.constructor`: the initial threshold 0.5 cannot be observed, because loading overwrites it before any prediction. The contract states only the loaded values.
- The logistic function and scikit-learn's floating-point arithmetic are left out. The probability is the abstract `sigmoid` of the exact decision value.
- NumPy broadcasting of length-1 parameter vectors is not modelled. The parameters must match the row length.
- `Classifier.LogWordModel.PredictClass` and `LearnWords.LearnWordsService.GetWordsToLearn` require every scale entry to be non-zero. A zero entry would make the transform produce infinities or NaN. scikit-learn's input check in `predict_proba` would then raise; that check is in scikit-learn, not in the code modelled here. Neither is modelled.
- `LearnWords.PrepareEntry`: times are whole seconds, and sub-second precision is not modelled. The day count is rounded from the exact rational, not from Python's float quotient. `SECONDS_IN_DAY` is a positive parameter, because its constants module is not part of this model.
- The string timestamp parse and the clock are left out. The seen time and the current time are integer parameters.
- TensorFlow's prediction, the tokenizer's text handling and the padding are foreign calls. `predict_next_words` takes the prediction vector and its argsort instead of the text.
- NumPy's order among equal scores is unspecified, so the argsort is an input constrained by `IsArgsort`.
- spaCy's parsing is a foreign call, represented by the abstract `firstTag` and `similarity`. The `IndexError` that an empty parse would raise is left out, and so is the diagnostic `print(word)`.
- The default arguments `n=3` of `predict_next_words` and `predict_next_words_with_synonyms`, `threshold=0.9` of `find_synonyms` and `threshold=0.55` of `predict_next_words_with_synonyms` are required parameters in the model. Every value is covered, so no behaviour is lost.
- `synonyms if synonyms else []` in `predict_next_words_with_synonyms` is the identity on lists, so the model stores the synonyms directly.
- `PredictWords.PredictWordsService.PredictNextWords`: for `n ≤ 0` the model returns no words, as intended, rather than the slice the code takes. See Findings.
- `PredictWords.PredictWordsService.PredictNextWordsWithSynonyms`: it uses the corrected selection, so for `n ≤ 0` the map has no keys. The code would have a key for every known word when `n = 0`. See Findings.
- `PredictWords.PredictWordsService.PredictNextWordsWithSynonyms`: the result is a Dafny `map`, which has no key order. The model does not capture the Python dict's best-first insertion order of the keys (`services/PredictWordsService.py:56-60`).
- The app's code has no repetition counting or transition to learnt, no "already known" override, no level bootstrapping, no minimum-delta filter, no sorting or truncation of the relearn batch and no definition lookup, so the model has none either.

## Findings

| source | as written | input that shows it | evidently intended | confidence | as-written member | corrected member |
|---|---|---|---|---|---|---|
| services/PredictWordsService.py:31 | `np.argsort(predictions)[-n:][::-1]` | `n = 0`: `a[-0:]` is `a[0:]`, so every position of the vocabulary is selected. `n = -2`: `a[2:]`, every position but the two lowest-scoring. | At most `n` words, and none for `n ≤ 0` | medium, not executed | PredictWords.SliceTopIndices, PredictWords.ZeroCountTakesAll | PredictWords.TopIndices, PredictWords.TopIndicesAreBest |
