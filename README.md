# Spaced-practice vocabulary engine, modelled in Dafny

This project models the logic of a vocabulary-learning iOS app (MRTERRIFIC007/notifications) and
proves properties of the model. The parts modelled are:

- **Mastery tracker** (`PersonalizedQuizService`). It keeps two maps per word:
  - `wrongWords`: the current streak of correct answers, for each word still in practice;
  - `wrongCountTracker`: the lifetime number of wrong answers.

  Each word follows the state machine Unseen → Active(0) → Active(1) → Active(2) → Mastered. A
  wrong answer always leads back to Active(0), and a mastered word can be added back to practice.
- **Reminder scheduler** (`NotificationManager`). It schedules the word list in batches of 64
  reminders, sets each reminder's fire offset, and queues a delayed continuation that schedules
  the next batch, wrapping to the start of the list.
- **Three quiz screens**:
  - the classic quiz;
  - the timed "fastest finger" quiz;
  - the personalized quiz on the words in practice.

  Each builds four answer options, tags the buttons, scores answers and reports them to the tracker.
- **Word groups** (`WordGroupService`). The corpus is cut into groups of fifteen words with
  difficulties by quarter. The model covers lookups by id, the next incomplete group, and marking
  and resetting completion.
- **Flash-card screen**. It covers:
  - the window of batches of ten cards;
  - index clamping;
  - the learned set;
  - the recently viewed list;
  - the reshuffle that keeps learned words in place;
  - the choice of words for the follow-up quiz.
- **Group list screen**: the search and difficulty filter, and the completion toggle.

Every quantity is an integer. Times are whole seconds. Strings are `seq<char>`.

Randomness becomes parameters:
- a shuffle is a parameter constrained to be a rearrangement (multiset equality);
- each `randomElement()` result is the next entry of a `draws` sequence.

External effects become state or steps:
- the operating system's notification centre is a class holding the pending requests, a log and
  the badge;
- each `DispatchQueue.main.asyncAfter` callback is either an explicit step method (`Advance`,
  `FireTimer`) or a value returned to the caller (`moveOn`, `FollowUp`).

Where the app relies on the platform, the guarantee is a precondition:
- a disabled or hidden button delivers no tap;
- the segmented control has five segments.

Files and modules:

| file | module | models |
|---|---|---|
| wrappers.dfy | Wrappers | `Option` |
| seqs.dfy | Seqs | filtering, subsequences, multiset splitting, sets as sequences |
| decimal.dfy | Decimal | decimal text of integers and its inverse |
| words.dfy | Words | `Word`, the corpus style fallback chain, `getRandomWords` |
| mastery.dfy | Mastery | the tracker, its state machine, the two list queries |
| reminders.dfy | Reminders | batches, identifiers, the notification centre, the manager |
| groups.dfy | WordGroups | group partition, lookups, completion, the service |
| options.dfy | QuizOptions | distractors, set-filled options, the four buttons |
| quiz.dfy | ClassicQuiz | the classic quiz screen |
| fastest_finger.dfy | FastestFinger | the timed quiz screen |
| personalized_game.dfy | PersonalizedGame | the personalized quiz screen |
| flashcards.dfy | FlashCards | the flash-card screen |
| group_list.dfy | GroupList | the group list and the completion toggle |

Observations on the source that the model makes explicit:

- **Timed quiz needs ten words.** The timed quiz always asks ten questions and reads
  `words[currentQuestionIndex]` with no bound check. `getRandomWords` returns fewer than ten words
  from a smaller corpus (`FastestFinger.SmallCorpusGivesFewerWords`). The model therefore requires
  a word for every question asked.
- **Personalized options can spin.** The loop keeps drawing until the option set holds four
  strings. When the other words supply fewer than three meanings distinct from the target's, the
  loop never stops (`QuizOptions.FillNeverCompletes`). In the model this state is the screen's
  `spinning` flag.
- **Duplicate "correct" tags.** The classic and timed quizzes tag a button "correct" when its
  title equals the correct meaning. A distractor with the same meaning is tagged as well, so two
  buttons carry the tag (`QuizOptions.MarksCountMeaning`).
- **An empty meaning is always marked wrong** in the personalized quiz. An empty option title is
  replaced by "Option text not available", and the answer is checked against the title
  (`PersonalizedGame.PersonalizedQuizGameViewController.OptionButtonTapped`).
- **Stopping reminders does not end the chain.** `stopAllNotifications` clears the pending
  requests and the badge. It does not cancel the continuation already queued, so reminders become
  pending again when it runs (`Reminders.StopDoesNotEndChain`), although the method's name suggests
  that it ends the reminders.

Some definitions only spell out a source expression and are used by the members in the table:

- `Reminders.ReminderFor`: the request `scheduleNotification` builds for a word, with the word as
  title, its meaning as body and the offset as trigger (AppDelegate.swift:93-101).
- `Reminders.DefaultReminder`: the single fallback request of `scheduleDefaultWordNotification`
  (AppDelegate.swift:34-43).
- `GroupList.Matches`: the search test of `filterGroups`, a match in the lowercased group name or
  in one of its lowercased words (WordGroupViewController.swift:95-98).
- `FlashCards.Source`: the list a batch is cut from, the unlearned words in unlearned mode and the
  whole corpus otherwise (FlashCardViewController.swift:249-263).
- `WordGroups.WordGroupService.Ready`: the groups and the initialised flag after the lazy
  `createWordGroups` of the getters (WordGroups.swift:60-62).

## Model

| member | source | states |
|---|---|---|
| Words.FirstAvailable | Notifications/WordModel.swift:35-77 | the result is None exactly when every file of the chain is missing; otherwise it is the first available file of the chain |
| Words.FallbackChain | Notifications/WordModel.swift:35-77 | the chain starts at the requested style, ends at the standard file and tries no file twice (flashcard falls back to concise at 75, concise to standard at 61) |
| Words.LoadWords | Notifications/WordModel.swift:35-77 | `loadWords(style:)` equals the first available file along the style's fallback chain (flashcard, then concise, then standard) |
| Words.GetRandomWords | Notifications/WordModel.swift:95-103 | None exactly when the load fails or the list is empty; otherwise `min(count, n)` words forming a sub-multiset of the loaded list |
| Mastery.Streak | Notifications/WordModel.swift:179-181 | 0 for a word not in practice; within 0..2 under the tracker invariant |
| Mastery.WrongCount | Notifications/WordModel.swift:184-186 | 0 for a word with no history; at least 1 for a word in practice under the invariant |
| Mastery.MarkWrong | Notifications/WordModel.swift:125-134 | the word is in practice with streak 0, its lifetime count goes up by exactly 1, and every other word keeps its record |
| Mastery.MarkCorrect | Notifications/WordModel.swift:137-154 | no change for a word not in practice; otherwise the streak goes up or, on reaching 3, the word leaves practice; lifetime counts and other words unchanged |
| Mastery.ResetStreak | Notifications/WordModel.swift:157-166 | has exactly the effect of `markWordAsWrong` |
| Mastery.AddBack | Notifications/WordModel.swift:217-224 | no change for a word with no history; otherwise the word is in practice with streak 0; counts and other words unchanged |
| Mastery.HasEnoughWords | Notifications/WordModel.swift:169-171 | true exactly when at least five words are in practice |
| Mastery.NextPhase | Notifications/WordModel.swift:125-166 | the per-word state machine: streaks stay in 0..2, a word is never Unseen again once seen, and the third correct answer in a row masters it |
| Mastery.StepFollowsStateMachine | Notifications/WordModel.swift:125-166 | every operation moves its word exactly as the Unseen/Active/Mastered state machine says, leaves other words alone, keeps the invariant (streaks 0..2, practice keys have a history, counts at least 1) and loses no history |
| Mastery.InvariantOverHistory | Notifications/WordModel.swift:125-224 | over any sequence of operations the invariant holds and no lifetime count is removed or lowered |
| Mastery.ThreeCorrectAnswersMaster | Notifications/WordModel.swift:137-154 | one wrong and three correct answers master a word and keep its count; a further correct answer changes nothing |
| Mastery.LucidExample | Notifications/WordModel.swift:125-154 | worked example: streak 0 and count 1 after a wrong answer, streak 2 after two correct ones, mastered with count 1 after the third |
| Mastery.Insert | Notifications/WordModel.swift:200 | inserting a row into a list sorted by non-increasing count keeps it sorted and adds exactly that row |
| Mastery.SortByCount | Notifications/WordModel.swift:200 | `sorted { $0.wrongCount > $1.wrongCount }`: sorted by non-increasing count and a permutation of the rows |
| Mastery.SortKeepsRows | Notifications/WordModel.swift:189-214 | a rearrangement of rows with distinct words has the same words, once each |
| Mastery.PersonalizedQuizService.constructor | Notifications/WordModel.swift:110-112 | `init` runs `loadWrongWordsFromStorage` (242-258): each map that was saved and decodes is taken as stored, unchecked; any other starts empty, and a tracker with neither stored is `Empty` |
| Mastery.PersonalizedQuizService.MarkWordAsWrong | Notifications/WordModel.swift:125-134 | the new state is `MarkWrong` of the old state |
| Mastery.PersonalizedQuizService.MarkWordAsCorrect | Notifications/WordModel.swift:137-154 | the new state is `MarkCorrect` of the old state |
| Mastery.PersonalizedQuizService.ResetWordStreak | Notifications/WordModel.swift:157-166 | the new state is `ResetStreak` of the old state |
| Mastery.PersonalizedQuizService.AddWordBackToPractice | Notifications/WordModel.swift:217-224 | the new state is `AddBack` of the old state |
| Mastery.PersonalizedQuizService.HasEnoughWordsForPersonalizedQuiz | Notifications/WordModel.swift:169-171 | agrees with `HasEnoughWords` on the current state |
| Mastery.PersonalizedQuizService.GetStreakForWord | Notifications/WordModel.swift:179-181 | agrees with `Streak` on the current state |
| Mastery.PersonalizedQuizService.GetWrongCountForWord | Notifications/WordModel.swift:184-186 | agrees with `WrongCount` on the current state |
| Mastery.PersonalizedQuizService.GetWrongWordsForQuiz | Notifications/WordModel.swift:174-176 | every word in practice exactly once, and nothing else |
| Mastery.PersonalizedQuizService.CollectEntries | Notifications/WordModel.swift:193-196 | the dictionary loop gives one row per key, with distinct words, each row holding the word's count and streak (0 by default) |
| Mastery.PersonalizedQuizService.GetAllWrongWordsWithCounts | Notifications/WordModel.swift:189-201 | exactly one row per word with a history, streak 0 once mastered, sorted by non-increasing count |
| Mastery.PersonalizedQuizService.GetWordsCurrentlyInPractice | Notifications/WordModel.swift:204-214 | exactly one row per word in practice, sorted by non-increasing count |
| Decimal.NatToString | Notifications/WordGroups.swift:170 | the decimal text of an integer: at least one digit, digits only, no leading zero |
| Decimal.ParseNatToString | Notifications/WordGroups.swift:170 | reading the decimal text back gives the number |
| Decimal.NatToStringInjective | Notifications/AppDelegate.swift:100 | different numbers have different texts |
| Reminders.BatchEnd | Notifications/AppDelegate.swift:67-69 | the batch from `s` ends at `min(s + 64, count)`: at most 64 reminders, and fewer only at the end of the list |
| Reminders.NextBatchStart | Notifications/AppDelegate.swift:84-87 | the next start is `s + 64`, or 0 once that reaches the count; for a non-empty list it stays below the count |
| Reminders.ContinuationDelay | Notifications/AppDelegate.swift:76-81 | the continuation waits `(end - s + 1)` intervals: later than the batch's last reminder whenever the interval is positive |
| Reminders.BatchRequests | Notifications/AppDelegate.swift:72-75 | one request per index of the batch |
| Reminders.BatchAt | Notifications/AppDelegate.swift:72-75 | index `s + j` gets its word's title and meaning and fires at `(j + 1) * interval` |
| Reminders.BatchShape | Notifications/AppDelegate.swift:66-90 | at most 64 reminders, with the words' titles and meanings; offsets strictly increase from `interval` to `(end - s) * interval`; the continuation runs one interval after the last reminder |
| Reminders.Identifier | Notifications/AppDelegate.swift:100 | an identifier is the word, then `_notification_`, then at least one more character (the offset's digits); `IdentifierInjective` shows it determines word and offset |
| Reminders.IdentifierInjective | Notifications/AppDelegate.swift:100 | an identifier `word_notification_offset` determines its word and its offset |
| Reminders.BatchIdentifiersDistinct | Notifications/AppDelegate.swift:72-75 | with a positive interval no two reminders of a batch share an identifier |
| Reminders.AllPending | Notifications/AppDelegate.swift:72-75 | adding requests with distinct identifiers to an empty centre leaves all of them pending |
| Reminders.PendingComesFrom | Notifications/AppDelegate.swift:72-75 | every pending identifier after adding a list of requests to an empty centre comes from one of the requests |
| Reminders.SeventyWordPool | Notifications/AppDelegate.swift:66-90 | 70 words give a batch of 64 at 1..64 intervals, a continuation at 65 intervals, then a batch of 6 after which the start wraps to 0 |
| Reminders.BatchesPerCycle | Notifications/AppDelegate.swift:84-87 | a non-empty list needs at least one batch per pass |
| Reminders.FirstPass | Notifications/AppDelegate.swift:84-87 | during the first pass the k-th batch starts at `64 k`, inside the list |
| Reminders.PassWraps | Notifications/AppDelegate.swift:84-87 | after `ceil(count / 64)` batches the chain is back at index 0 |
| Reminders.ChainCycles | Notifications/AppDelegate.swift:82-89 | the chain repeats the same starts forever and never ends on its own |
| Reminders.NotificationCenter.constructor | Notifications/AppDelegate.swift:25 | the centre starts with nothing pending, an empty log and badge 0 |
| Reminders.NotificationCenter.Add | Notifications/AppDelegate.swift:103 | adding replaces any pending request with the same identifier and logs the request |
| Reminders.NotificationCenter.RemoveAllPendingNotificationRequests | Notifications/AppDelegate.swift:26 | nothing stays pending; log and badge unchanged |
| Reminders.NotificationCenter.SetBadgeCount | Notifications/AppDelegate.swift:59 | sets the badge; pending requests and log unchanged |
| Reminders.NotificationManager.constructor | Notifications/AppDelegate.swift:11-13 | a manager with no queued callbacks |
| Reminders.NotificationManager.ScheduleWordNotifications | Notifications/AppDelegate.swift:16-31 | without a word list exactly one default reminder is added and no chain starts; otherwise the pending requests are replaced by batch 0 and one continuation is queued |
| Reminders.NotificationManager.ScheduleDefaultWordNotification | Notifications/AppDelegate.swift:34-50 | adds the one default reminder, firing after `duration` |
| Reminders.NotificationManager.StopAllNotifications | Notifications/AppDelegate.swift:53-64 | nothing stays pending and the badge is 0 |
| Reminders.NotificationManager.ScheduleBatch | Notifications/AppDelegate.swift:66-90 | the loop adds exactly the batch's requests, in order, and queues the continuation with delay `(end - s) * interval + interval` |
| Reminders.NotificationManager.ScheduleNotification | Notifications/AppDelegate.swift:92-110 | adds the word's reminder under the identifier `word_notification_offset` |
| Reminders.NotificationManager.FireTimer | Notifications/AppDelegate.swift:82-89 | running a queued callback schedules the batch at the next start (wrapping to 0) and queues its own continuation |
| Reminders.StopDoesNotEndChain | Notifications/AppDelegate.swift:53-64 | after starting reminders and stopping them nothing is pending, but once the queued continuation runs reminders are pending again |
| WordGroups.NumberOfGroups | Notifications/WordGroups.swift:146 | `ceil(n / 15)`: enough groups of fifteen for `n` words and no more; zero only for no words |
| WordGroups.DifficultyFor | Notifications/WordGroups.swift:157-166 | beginner exactly for the first quarter of the groups, expert exactly from three quarters on; `DifficultyNonDecreasing` gives the order |
| WordGroups.Partition | Notifications/WordGroups.swift:146-178 | there are `ceil(n / 15)` groups |
| WordGroups.PartitionAt | Notifications/WordGroups.swift:151-175 | group `i` holds the words `15 i ..< min(15 i + 15, n)`, id `i + 1`, name "Group i+1", its quarter's difficulty, not completed |
| WordGroups.PartitionConcatenates | Notifications/WordGroups.swift:142-154 | the groups' word lists, concatenated in order, give back the word texts |
| WordGroups.PartitionSizes | Notifications/WordGroups.swift:151-154 | every group has fifteen words except the last, which has one to fifteen |
| WordGroups.PartitionIdentities | Notifications/WordGroups.swift:168-175 | ids are 1, 2, ... in order, names "Group 1", "Group 2", ..., none completed or studied |
| WordGroups.DifficultyNonDecreasing | Notifications/WordGroups.swift:157-166 | difficulty never decreases along the groups, and the last group is expert |
| WordGroups.BuildGroups | Notifications/WordGroups.swift:149-178 | the loop builds exactly the partition |
| WordGroups.FindGroupIndex | Notifications/WordGroups.swift:92 | `firstIndex(where:)`: None exactly when no group has the id, otherwise the first index with it |
| WordGroups.GetWordGroup | Notifications/WordGroups.swift:75-80 | None exactly when no group has the id, otherwise the first group with it |
| WordGroups.GetNextIncompleteGroup | Notifications/WordGroups.swift:83-88 | None exactly when all groups are completed, otherwise the first group that is not |
| WordGroups.GroupsByDifficulty | Notifications/WordGroups.swift:67-72 | the groups of that difficulty, as an order-preserving subsequence that keeps every occurrence of each such group and nothing else |
| WordGroups.WordObjectsForGroup | Notifications/WordGroups.swift:113-124 | None exactly when the group is unknown or the corpus does not load; otherwise the corpus entries whose word is in the group, in corpus order and as often as in the corpus |
| WordGroups.MarkCompleted | Notifications/WordGroups.swift:91-97 | the first group with the id becomes completed and studied now, with nothing else changed; no match changes nothing |
| WordGroups.ResetGroup | Notifications/WordGroups.swift:100-105 | the first group with the id is no longer completed and keeps its last study time, with nothing else changed; no match changes nothing |
| WordGroups.FindGroupIndexSameIds | Notifications/WordGroups.swift:92 | groups with the same ids in the same places are looked up at the same index |
| WordGroups.CompletionLookups | Notifications/WordGroups.swift:75-105 | marking and resetting keep every id in place; afterwards the group with the id is found completed, or not completed |
| WordGroups.WordGroupService.constructor | Notifications/WordGroups.swift:52-54 | the saved groups when they decode; otherwise the groups built from the corpus, and no groups and not initialised when the corpus does not load |
| WordGroups.WordGroupService.CreateWordGroups | Notifications/WordGroups.swift:135-184 | the groups become the partition of the corpus' word texts; nothing changes when the corpus does not load |
| WordGroups.WordGroupService.EnsureInitialized | Notifications/WordGroups.swift:60-62 | the getters' lazy initialisation: builds the groups unless already initialised |
| WordGroups.WordGroupService.GetAllWordGroups | Notifications/WordGroups.swift:59-64 | the groups after initialisation |
| WordGroups.WordGroupService.GetWordGroupsByDifficulty | Notifications/WordGroups.swift:67-72 | initialises, then returns the groups of that difficulty |
| WordGroups.WordGroupService.GetWordGroupById | Notifications/WordGroups.swift:75-80 | initialises, then returns the first group with the id |
| WordGroups.WordGroupService.GetNextIncompleteGroupOf | Notifications/WordGroups.swift:83-88 | initialises, then returns the first incomplete group |
| WordGroups.WordGroupService.MarkGroupAsCompleted | Notifications/WordGroups.swift:91-97 | the groups become `MarkCompleted` of the old groups, without initialising first |
| WordGroups.WordGroupService.ResetGroupById | Notifications/WordGroups.swift:100-105 | the groups become `ResetGroup` of the old groups, without initialising first |
| WordGroups.WordGroupService.GetWordsFromGroup | Notifications/WordGroups.swift:108-110 | the group's words, None exactly when no group has the id |
| WordGroups.WordGroupService.GetWordObjectsForGroup | Notifications/WordGroups.swift:113-124 | agrees with `WordObjectsForGroup` on the initialised groups and the standard corpus |
| QuizOptions.Others | Notifications/QuizViewController.swift:263 | the pool entries whose word is not the target's, as a subsequence of the pool, each as often as in the pool |
| QuizOptions.Distractors | Notifications/QuizViewController.swift:262-277 | always three; the placeholders when fewer than three other words exist; otherwise the meanings of three distinct pool entries other than the target |
| QuizOptions.ArrangedOptions | Notifications/QuizViewController.swift:280-283 | a rearrangement of the correct meaning and three distractors has four options, the correct meaning among them |
| QuizOptions.Tags | Notifications/QuizViewController.swift:289 | a button is tagged correct exactly when its option equals the correct meaning |
| QuizOptions.CorrectMarks | Notifications/QuizViewController.swift:286-290 | the number of buttons tagged correct is the number of `true` tags |
| QuizOptions.CorrectMarksCount | Notifications/QuizViewController.swift:286-290 | the number of tagged buttons is the number of options equal to the correct meaning |
| QuizOptions.MarksCountMeaning | Notifications/QuizViewController.swift:280-290 | one tag plus one per distractor equal to the correct meaning, so such a distractor makes two tagged buttons |
| QuizOptions.DisplayTitle | Notifications/QuizViewController.swift:296-300 | a shown title is never empty; a non-empty option is shown as it is |
| QuizOptions.FillWithin | Notifications/PersonalizedQuizGameViewController.swift:311-316 | the loop only adds meanings of drawn words and never goes past four strings |
| QuizOptions.Fill | Notifications/PersonalizedQuizGameViewController.swift:311-316 | the loop only adds to the set, and a set already holding four options is left as it is |
| QuizOptions.FillNeverCompletes | Notifications/PersonalizedQuizGameViewController.swift:311-316 | with fewer than three other meanings distinct from the target's, no draws complete the set |
| QuizOptions.FillCanComplete | Notifications/PersonalizedQuizGameViewController.swift:311-316 | three other words with distinct meanings, all different from the target's, complete the set |
| QuizOptions.FillSet | Notifications/PersonalizedQuizGameViewController.swift:311-316 | the while loop leaves the set that `Fill` gives for the draws |
| QuizOptions.GenerateSetOptions | Notifications/PersonalizedQuizGameViewController.swift:303-320 | when the draws complete the set: four distinct options, exactly the set, including the target's meaning, every other one the meaning of a word other than the target; otherwise None |
| QuizOptions.OptionButtons.constructor | Notifications/QuizViewController.swift:92-127 | four buttons with no titles, untagged and enabled |
| QuizOptions.OptionButtons.Show | Notifications/QuizViewController.swift:286-300 | button `k` shows option `k` (or the replacement for an empty one) and is enabled, tagged when asked; the other buttons and tags are kept |
| QuizOptions.OptionButtons.ShowFixedOptions | Notifications/QuizViewController.swift:257-301 | all four buttons show the arranged options, are enabled and are tagged correct exactly when showing the correct meaning |
| QuizOptions.OptionButtons.SetTitles | Notifications/QuizViewController.swift:286-293 | titles and enabling of the first buttons, the others kept |
| QuizOptions.OptionButtons.MarkCorrect | Notifications/QuizViewController.swift:289 | tags of the first buttons, the others kept |
| QuizOptions.OptionButtons.ReplaceEmptyTitles | Notifications/QuizViewController.swift:296-300 | every empty title is replaced, the others kept |
| QuizOptions.OptionButtons.DisableAll | Notifications/QuizViewController.swift:334-337 | all four buttons disabled |
| ClassicQuiz.QuizViewController.constructor | Notifications/QuizViewController.swift:37-43 | `init(words:)`: the given words (none for `nil`), no distractor corpus yet, question 0, no score, no wrong answers, neither loaded nor aborted |
| ClassicQuiz.QuizViewController.LoadWords | Notifications/QuizViewController.swift:178-221 | `viewDidLoad`'s loading (52-58): with no words given, `getRandomWords(count: 10)`; then the corpus for the distractors. Ready exactly when the corpus loads non-empty and there are words; otherwise aborted by an alert. The distractor corpus is the loaded one |
| ClassicQuiz.QuizViewController.ShowNextQuestion | Notifications/QuizViewController.swift:225-255 | only after a successful load; finished exactly when every word was asked; otherwise four enabled buttons with the arranged options, tagged exactly when showing the correct meaning |
| ClassicQuiz.QuizViewController.OptionButtonTapped | Notifications/QuizViewController.swift:303-345 | a tagged button scores a point and calls `markWordAsCorrect`; any other appends the word to the wrong answers and calls `markWordAsWrong`; points plus wrong answers equal the answered questions |
| ClassicQuiz.QuizViewController.Advance | Notifications/QuizViewController.swift:340-343 | the next question on the same words and corpus; finished exactly when the index reaches the word count; otherwise four enabled buttons titled and tagged by the arrangement; score and wrong answers kept |
| ClassicQuiz.QuizViewController.StepToNextQuestion | Notifications/QuizViewController.swift:341-342 | the callback's index step: index + 1, nothing pending, everything else kept |
| ClassicQuiz.QuizViewController.FinishButtonTapped | Notifications/QuizViewController.swift:363-371 | reports score, word count and wrong answers; the counts add up to the word count once all are answered |
| FastestFinger.SmallCorpusGivesFewerWords | Notifications/FastestFingerQuizViewController.swift:175 | a corpus of fewer than ten words gives the quiz fewer words than its ten questions |
| FastestFinger.FastestFingerQuizViewController.constructor | Notifications/FastestFingerQuizViewController.swift:21-34 | question 0, no score, unanswered, no timer, no words and no corpus yet, neither ready nor aborted |
| FastestFinger.FastestFingerQuizViewController.LoadWords | Notifications/FastestFingerQuizViewController.swift:169-205 | the corpus for the distractors and `getRandomWords`' ten words of it; ready exactly when the corpus loads and is non-empty, with `min(10, n)` words; otherwise aborted (alert and dismissal) |
| FastestFinger.FastestFingerQuizViewController.ShowNextQuestion | Notifications/FastestFingerQuizViewController.swift:208-245 | results after ten questions; otherwise an unanswered question with four tagged options and a running timer |
| FastestFinger.FastestFingerQuizViewController.ShowQuizResults | Notifications/FastestFingerQuizViewController.swift:405-420 | finished, with the options hidden (no taps) |
| FastestFinger.FastestFingerQuizViewController.PresentQuestion | Notifications/FastestFingerQuizViewController.swift:215-244 | the question part of `showNextQuestion`: unanswered, options on the buttons, timer running |
| FastestFinger.FastestFingerQuizViewController.TimeExpired | Notifications/FastestFingerQuizViewController.swift:328-356 | an unanswered question is marked wrong without a point and the move on is scheduled; after an answer nothing changes but the timer |
| FastestFinger.FastestFingerQuizViewController.OptionButtonTapped | Notifications/FastestFingerQuizViewController.swift:358-397 | ignored once answered; otherwise one answer is recorded, a tagged button scores a point and calls `markWordAsCorrect`, any other calls `markWordAsWrong` |
| FastestFinger.FastestFingerQuizViewController.RecordAnswer | Notifications/FastestFingerQuizViewController.swift:360-380 | the state part of a first tap: answered, timer stopped, one more answer recorded, a point exactly when correct, the move on scheduled |
| FastestFinger.FastestFingerQuizViewController.Advance | Notifications/FastestFingerQuizViewController.swift:398-402 | the next question on the same words and corpus; finished exactly when the index reaches ten; otherwise unanswered, timer running, four enabled buttons titled and tagged by the arrangement; score kept |
| FastestFinger.FastestFingerQuizViewController.StepToNextQuestion | Notifications/FastestFingerQuizViewController.swift:400 | the callback's index step: index + 1, nothing pending, everything else kept |
| FastestFinger.FastestFingerQuizViewController.FinalScore | Notifications/FastestFingerQuizViewController.swift:415 | the final score is at most ten |
| PersonalizedGame.PracticeWords | Notifications/PersonalizedQuizGameViewController.swift:199 | the loaded entries whose word is in practice, each occurrence kept, nothing else |
| PersonalizedGame.PracticeNeedsCorpus | Notifications/PersonalizedQuizGameViewController.swift:199-202 | a non-empty shuffle of the practice words needs a non-empty corpus |
| PersonalizedGame.PersonalizedQuizGameViewController.constructor | Notifications/PersonalizedQuizGameViewController.swift:22-27 | no words, no score, no question asked |
| PersonalizedGame.PersonalizedQuizGameViewController.LoadWords | Notifications/PersonalizedQuizGameViewController.swift:166-248 | aborts with no word in practice or no corpus; otherwise the words are a shuffle of the practice words, `totalQuestions` is `min(10, count)`, and it aborts when there are none |
| PersonalizedGame.PersonalizedQuizGameViewController.ShowNextQuestion | Notifications/PersonalizedQuizGameViewController.swift:250-301 | results once `totalQuestions` were asked; spinning exactly when the draws do not complete the set, with the buttons untouched; otherwise the four distinct options of the set, one per enabled button, the target's meaning among them |
| PersonalizedGame.PersonalizedQuizGameViewController.PresentQuestion | Notifications/PersonalizedQuizGameViewController.swift:261-301 | the question part of `showNextQuestion`: spinning exactly when the draws do not complete the set, with the buttons untouched; otherwise the set's four distinct options on four enabled buttons |
| PersonalizedGame.PersonalizedQuizGameViewController.OptionButtonTapped | Notifications/PersonalizedQuizGameViewController.swift:322-362 | never while spinning; correct exactly when the title is the word's meaning: a point and `markWordAsCorrect`; otherwise `resetWordStreak`; words, corpus and flags kept |
| PersonalizedGame.PersonalizedQuizGameViewController.Advance | Notifications/PersonalizedQuizGameViewController.swift:357-360 | the next question on the same words, corpus and `totalQuestions`; finished exactly when the index reaches `totalQuestions`; otherwise spinning exactly when the draws do not complete the set, with the buttons untouched, or the set's four distinct options on four enabled buttons |
| FlashCards.UnlearnedMembers | Notifications/FlashCardViewController.swift:252 | the unlearned words are exactly the corpus entries whose word is not learned |
| FlashCards.Listed | Notifications/FlashCardViewController.swift:227 | the corpus entries whose word is listed, in corpus order, each occurrence kept |
| FlashCards.Displayed | Notifications/FlashCardViewController.swift:255 | `min(batch * 10, n)` |
| FlashCards.Window | Notifications/FlashCardViewController.swift:255-263 | the first `min(batch * 10, n)` words of the source, non-empty when the source is |
| FlashCards.SourceCounts | Notifications/FlashCardViewController.swift:249-263 | the batch source holds every corpus entry as often as the corpus, except that unlearned mode drops the learned ones |
| FlashCards.Remaining | Notifications/FlashCardViewController.swift:419-426 | the shown window followed by the remaining words gives back the source |
| FlashCards.Clamp | Notifications/FlashCardViewController.swift:270-272 | afterwards the index points at a card, or there is none and it is 0; an index already inside is kept |
| FlashCards.FirstIndexOf | Notifications/FlashCardViewController.swift:330 | `firstIndex(of:)`: None exactly when absent, otherwise the first position |
| FlashCards.Seen | Notifications/FlashCardViewController.swift:330-333 | the shown word is the last entry and the list grows by at most one; `SeenMovesToEnd` gives the rest |
| FlashCards.SeenMovesToEnd | Notifications/FlashCardViewController.swift:330-333 | the shown word becomes the last entry; no other word is added or lost; a list without duplicates stays so |
| FlashCards.Toggle | Notifications/FlashCardViewController.swift:494-498 | the word's membership flips and no other word's changes |
| FlashCards.ToggleTwice | Notifications/FlashCardViewController.swift:494-498 | toggling twice restores the set |
| FlashCards.Merged | Notifications/FlashCardViewController.swift:443-453 | the merge has the corpus' length |
| FlashCards.MergeUnlearned | Notifications/FlashCardViewController.swift:442-453 | the map with its `index` counter computes the merge |
| FlashCards.UnlearnedBeforeCounts | Notifications/FlashCardViewController.swift:442-449 | the counter before position `i` is the number of unlearned words in front of `i` |
| FlashCards.MergeUsesFill | Notifications/FlashCardViewController.swift:446-449 | up to any position the merge has used the fill in order, one word per unlearned slot |
| FlashCards.MergeKeepsLearned | Notifications/FlashCardViewController.swift:444-445 | up to any position the merge holds the corpus' learned words in their order |
| FlashCards.MergePermutes | Notifications/FlashCardViewController.swift:433-453 | with a fill that rearranges the unlearned words, the merge's unlearned words are the fill and the merge rearranges the corpus |
| FlashCards.MergeKeepsPositions | Notifications/FlashCardViewController.swift:444-445 | every learned word stays at its position |
| FlashCards.Reshuffled | Notifications/FlashCardViewController.swift:417-461 | in unlearned mode the corpus keeps its length and every learned word its position; in all-words mode the shown prefix is kept |
| FlashCards.ReshufflePreserves | Notifications/FlashCardViewController.swift:417-461 | the reshuffle rearranges the corpus; in unlearned mode learned words keep their positions; the cards already shown start the next window |
| FlashCards.LatestViewed | Notifications/FlashCardViewController.swift:593-594 | the last `min(10, n)` viewed words |
| FlashCards.TakeQuiz | Notifications/FlashCardViewController.swift:579-631 | an alert exactly when fewer than five words were viewed, a load error exactly when the corpus does not load, otherwise every corpus entry (with its multiplicity) of the five to ten latest viewed words, in corpus order |
| FlashCards.FlashCardViewController.constructor | Notifications/FlashCardViewController.swift:217-247 | unlearned mode, batch 1, the shuffled corpus (or listed words) with the first batch shown; empty when the corpus does not load |
| FlashCards.FlashCardViewController.ShouldLoadMoreWords | Notifications/FlashCardViewController.swift:391-398 | true exactly when the shown batches leave words of the source out |
| FlashCards.FlashCardViewController.DisplayCurrentCard | Notifications/FlashCardViewController.swift:278-348 | the current card, if any, is viewed and moved to the end of the recent list; nothing else changes |
| FlashCards.FlashCardViewController.FilterAndDisplayWords | Notifications/FlashCardViewController.swift:249-276 | the window of the source, the index clamped to it, the current card shown |
| FlashCards.FlashCardViewController.LoadMoreWords | Notifications/FlashCardViewController.swift:411-473 | one more batch, after a reshuffle past the middle; the corpus is only rearranged; the move on is scheduled exactly when the index was on the last card and the window grew |
| FlashCards.FlashCardViewController.ReshuffleRemaining | Notifications/FlashCardViewController.swift:417-461 | the corpus becomes the reshuffle, a rearrangement of it; nothing else changes |
| FlashCards.FlashCardViewController.NextButtonTapped | Notifications/FlashCardViewController.swift:364-388 | the next card; at the last card with more words, exactly the effect of `LoadMoreWords` (batch, reshuffle, window, clamped index, viewed card, move on); at the very end nothing |
| FlashCards.FlashCardViewController.PrevButtonTapped | Notifications/FlashCardViewController.swift:475-487 | the previous card, unless this is the first |
| FlashCards.FlashCardViewController.LearnedButtonTapped | Notifications/FlashCardViewController.swift:489-527 | toggles the current word and shows the card again; a word just learned in unlearned mode schedules a move back from the last card, on from any other, or a refilter when it was the only card |
| FlashCards.FlashCardViewController.ModeChanged | Notifications/FlashCardViewController.swift:533-539 | the chosen mode, batch 1, index 0, the first batch of the reshuffled corpus |
| FlashCards.FlashCardViewController.RestartButtonTapped | Notifications/FlashCardViewController.swift:558-569 | batch 1, index 0, the first batch of the reshuffled corpus, same mode |
| GroupList.Lower | Notifications/WordGroupViewController.swift:93 | same length, no upper-case letter left |
| GroupList.LowerIdempotent | Notifications/WordGroupViewController.swift:93-97 | lowercasing twice is lowercasing once |
| GroupList.ContainsOccurs | Notifications/WordGroupViewController.swift:96-97 | `contains` holds exactly when the query occurs at some position |
| GroupList.SegmentDifficulty | Notifications/WordGroupViewController.swift:105-106 | segment `k > 0` selects the `k - 1`-th difficulty |
| GroupList.FilterGroups | Notifications/WordGroupViewController.swift:91-111 | the list is no longer than the groups and holds no group more often than they do |
| GroupList.NoFilterListsAll | Notifications/WordGroupViewController.swift:92-101 | with no search text and the "All" segment every group is listed, in order |
| GroupList.FilterGroupsMembers | Notifications/WordGroupViewController.swift:91-111 | a group is listed exactly when it matches the search (if any) and has the segment's difficulty (if any), and then as often as it occurs among the groups |
| GroupList.FilterGroupsInOrder | Notifications/WordGroupViewController.swift:95-107 | the list is an order-preserving subsequence of the groups |
| GroupList.ToggleCompletion | Notifications/WordGroupViewController.swift:313-322 | the same number of groups, every group with another id unchanged |
| GroupList.ToggleFlips | Notifications/WordGroupViewController.swift:313-322 | the toggle flips the group's completion and keeps every id in place; an unknown id changes nothing |
| GroupList.ToggleTwice | Notifications/WordGroupViewController.swift:313-322 | toggling twice restores the group's completion |
| GroupList.ToggleCompletionStatus | Notifications/WordGroupViewController.swift:313-322 | the service's groups become the toggle of the initialised groups |

## Left out

- User interface: layout, colours, animations, gestures, alerts' text, labels, table cells,
  `QuizStyling`, card images (`WordImageManager`). They display state and add no logic. An alert
  followed by a dismissal is a flag (`aborted`) or a result value (`QuizStart`).
- Persistence: UserDefaults and JSON encoding of the tracker, the groups and the flash-card sets.
  What was stored and decodes is a constructor parameter (`Option` when it may be missing); saving
  is not modelled. Like the source, the model does not check stored tracker data against the
  tracker invariant.
- Bundle file reading (`loadWordsFromFile`): each file's decoded content is a `Bundle` parameter.
  The per-style cache returns the same list for a fixed bundle, so it is not modelled.
- Randomness: shuffles and `randomElement()` are parameters, as described above.
- Floating point:
  - the timed quiz's 0.1-second countdown, its label and colour thresholds;
  - `getCompletionProgress`, a Double division;
  - minute parsing.

  Intervals are whole seconds.
- Reminders.Identifier: the offset in an identifier is written as integer decimal text, while the
  source interpolates a Double (for example "60.0"). Both are injective in the offset, so the
  distinctness of identifiers is unaffected.
- Concurrency: `asyncAfter` callbacks are explicit steps or returned values. The classic quiz's
  0.1-second delay before its first question is the caller's `ShowNextQuestion` after a successful
  `LoadWords`, and the same holds for the timed quiz. No interleaving of two
  pending callbacks is modelled beyond the `timers` queue of the reminder scheduler.
- GroupList.Lower: lowercasing is modelled on ASCII letters only. Swift's `lowercased()` follows
  Unicode.
- FlashCards preloading: `preloadMoreWordsIfNeeded` and the `isLoadingMoreWords` flag only decide
  when `loadMoreWords` is called, so they are not modelled. The same holds for
  `loadMoreButtonTapped`, the swipe handler, the screen-tap handler and the menu.
- FlashCards.FlashCardViewController.DisplayCurrentCard: the "All Cards Viewed" branch, taken
  for a non-empty window with the index past its end, is modelled as no change. Besides its labels
  that branch schedules `loadMoreWords` when `shouldLoadMoreWords()` holds. Every caller clamps the
  index first, so `Valid()` rules the branch out.
- The flash-card quiz results handler (`showQuizResults` of FlashCardViewController.swift) is not
  modelled beyond `TakeQuiz`. Its loop only calls `markWordAsWrong`, which is modelled.
- The UI glue screens PersonalizedQuizViewController.swift, LearnedWordsViewController.swift,
  WordDetailViewController.swift, GameViewController.swift and ViewController.swift only call the
  tracker or the services, so they are not modelled. Neither are the build scripts, asset tools and
  UI tests.
- ClassicQuiz, FastestFinger and PersonalizedGame button taps: the model requires the tapped button
  to be enabled, because disabled and hidden buttons deliver no taps. The personalized tap and
  `ShowNextQuestion` also require the screen not to be `spinning`; see below.
- ClassicQuiz and FastestFinger `ShowNextQuestion` and `Advance`: require `ready`, because
  `viewDidLoad` shows the first question only after `LoadWords` succeeded, and an aborted screen
  is dismissed.
- FastestFinger.FastestFingerQuizViewController.ShowNextQuestion: requires a word for every
  question asked. The source reads `words[currentQuestionIndex]` unchecked and crashes with fewer
  than ten words.
- GroupList.FilterGroups: requires a segment index below 5, which the five-segment control
  guarantees.
- PersonalizedGame.PersonalizedQuizGameViewController.ShowNextQuestion: when the draws run out
  before the option set is full, the model stops in the `spinning` state. The source keeps
  drawing, forever in the case `FillNeverCompletes` describes. No tap and no further question
  happen while spinning, because the main thread is busy in the loop.
