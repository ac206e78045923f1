# WHALE (senseeverything) in Dafny

A Dafny model of the decision logic of WHALE. WHALE is an Android app that samples phone sensors and
asks experience-sampling (ESM) questionnaires during a study. The model also covers two controllers of
its backend. It covers the parts of the app that decide, schedule, store and shape data. The platform
around them (the clock, the database, the network, Android callbacks, randomness and hashing) is
replaced by values and functions passed in as parameters.

The modules follow the source files:

- **Sampling.**
  - `LogService` is the Kotlin sampling service's three-state machine: idle, sampling after an unlock, and periodic sampling. Its handler runnables and its sensor start/stop rule are modelled with it.
  - `LogServiceJava` is the older Java service, with its SLEEP state that nothing assigns.
  - `BootReceiver` decides what the app does after a reboot.
- **Notification waves.**
  - `BucketedWidget` holds the two-hour time buckets.
  - `FloatingWidgetScheduler` plans notifications per day and bucket, adds their timeouts and picks the valid trigger.
  - `EsmHandler` matches events, creates rule-based notifications and searches for random EMA times and periodic alarms.
  - `ChangePhaseReceiver` schedules the phase-change alarms.
  - `NotificationTriggerReceiving` pushes planned notifications.
  - `QuestionnaireReminderReceiver` handles reminders.
  - `Triggers` holds the shared notification-trigger records.
  - `Clock` does the calendar arithmetic on epoch milliseconds.
- **Upload and store.**
  - `LogStore` is the readings table and its queries.
  - `SensorReadingsUpload` is the batch upload worker.
  - `ChunkedUpload` is the adaptive chunking that halves the chunk on HTTP 413.
  - `SnapshotBatching` queues and batches accessibility snapshots.
- **Records, rules and serialisers.**
  - `DataStore` covers the settings record, its recovery with defaults, the `save*` updates and the study day and phase.
  - `PendingQuestionnaires` is the pending-questionnaire record and its updates.
  - `ScheduledAlarms` is the alarm records with idempotent get-or-create.
  - `QuestionnaireAnswers` is the answer-upload request.
  - `QuestionnaireRuleEvaluator` evaluates questionnaire rules.
  - `QuestionnaireElements` and `ScreenSnapshots` are JSON writers and readers with their round trips, over the `Json` tree model.
  - `ElementValues` are answer values.
  - `QuestionnaireData` builds the text replacements.
  - `SensitiveData` covers salts and salted hashes.
  - `OnboardingUrls` reads onboarding links.
- **Interaction and UI.**
  - `OnboardingSteps` and `Onboarding` are the onboarding step machine and the view model that persists it.
  - `InteractionWidget` is the yes/no interaction widget.
  - `FloatingWidgetState` is the button-driven questionnaire widget.
  - `NotificationListener` is the notification listener with de-duplication and a delivery queue.
  - `PermissionNotifications` throttles the permission-revoked notification.
  - `UiClassifiers` and `UiTree` cover the accessibility skeleton, its debounce and its signature.
  - `AudioSegmentReader` and `VadReader` are audio segmenting and voice-activity arithmetic.
- **Backend.**
  - `EsmResponse` covers the answer upload: path checks, skipping completed answers, and last-writer-wins storage of notification triggers.
  - `Completion` covers the completion labels and the route's errors.
- **Shared modules.** `Wrappers`, `Seqs`, `Text` (Kotlin's `Int` wrap-around, `split`, `toInt`, `hashCode` and the like) and `Study`.

Stateful source objects are classes. Their `Model()` function reads the fields. Each method's
postcondition ties the new `Model()` to a pure specification function of the old one. The properties
are lemmas about those functions.

## Model

| member | source | states |
|---|---|---|
| AudioSegmentReader.Section | app-android/app/src/main/java/de/mimuc/senseeverything/workers/conversation/AudioSegmentReader.kt:34-45 | the last section ends at the current position, holds the open section's bytes, and is speech exactly when its label is "Speech" |
| AudioSegmentReader.Process | app-android/app/src/main/java/de/mimuc/senseeverything/workers/conversation/AudioSegmentReader.kt:10-32 | a segment is emitted exactly when a label was already open and the chunk's label differs; the emitted segment is the open section and the new section holds only the chunk; otherwise the section grows by the chunk; the chunk's label becomes the open label and the position grows by the chunk size |
| AudioSegmentReader.FeedConservesBytes | app-android/app/src/main/java/de/mimuc/senseeverything/workers/conversation/AudioSegmentReader.kt:10-32 | over any stream of chunks, the emitted segments plus the open section hold every byte fed in, and the position is the number of bytes fed in |
| AudioSegmentReader.SegmentsCoverAllBytes | app-android/app/src/main/java/de/mimuc/senseeverything/workers/conversation/AudioSegmentReader.kt:10-41 | the segments together with the last section add up to the bytes fed in |
| AudioSegmentReader.FeedAlternates | app-android/app/src/main/java/de/mimuc/senseeverything/workers/conversation/AudioSegmentReader.kt:13-25 | with every chunk labelled, no two consecutive segments (the last section included) share a label and none is unlabelled; a label is open exactly when some chunk was fed |
| AudioSegmentReader.FirstChunkEmitsNothing | app-android/app/src/main/java/de/mimuc/senseeverything/workers/conversation/AudioSegmentReader.kt:13-14 | the first chunk never closes a segment |
| AudioSegmentReader.Segmenter.ProcessFrameChunk | app-android/app/src/main/java/de/mimuc/senseeverything/workers/conversation/AudioSegmentReader.kt:10-32 | the new fields and the returned segment are those of Process on the old fields |
| AudioSegmentReader.Segmenter.GetLastSection | app-android/app/src/main/java/de/mimuc/senseeverything/workers/conversation/AudioSegmentReader.kt:34-41 | returns the open section, as Section states it |
| AudioSegmentReader.Segment | app-android/app/src/main/java/de/mimuc/senseeverything/workers/conversation/AudioSegmentReader.kt:5-41 | feeding every chunk through one reader and then taking the last section yields the segments of Feed followed by the last section |
| VadReader.Divide | app-android/app/src/main/java/de/mimuc/senseeverything/workers/conversation/VadReader.kt:25 | a division of two integers converted to Double: the exact quotient for a non-zero divisor, otherwise an infinity, or NaN exactly when the dividend is 0 too |
| VadReader.SpeechPercentage | app-android/app/src/main/java/de/mimuc/senseeverything/workers/conversation/VadReader.kt:12-26 | 0 when there is no audio or no speech; otherwise the value that, times the total length, gives the speech length |
| VadReader.SpeechWithinTotal | app-android/app/src/main/java/de/mimuc/senseeverything/workers/conversation/VadReader.kt:13-17 | with no negative length, the speech length lies between 0 and the total length |
| VadReader.SpeechPercentageIsFraction | app-android/app/src/main/java/de/mimuc/senseeverything/workers/conversation/VadReader.kt:12-26 | with no negative length, the speech percentage lies in [0, 1] |
| VadReader.IntDiv | app-android/app/src/main/java/de/mimuc/senseeverything/workers/conversation/VadReader.kt:32 | Kotlin's integer division: truncation towards zero for either sign of the dividend |
| VadReader.RecordingLength | app-android/app/src/main/java/de/mimuc/senseeverything/workers/conversation/VadReader.kt:28-35 | for a non-zero byte rate, the length is the total bytes over the byte rate |
| VadReader.SixteenBitSixteenKilohertz | app-android/app/src/main/java/de/mimuc/senseeverything/workers/conversation/VadReader.kt:28-35 | at 16 kHz and 16 bits the length is the byte count over 32000 |
| VadReader.LabelKeys | app-android/app/src/main/java/de/mimuc/senseeverything/workers/conversation/VadReader.kt:38 | a group key is present exactly when some segment has it |
| VadReader.PercentagePerLabel | app-android/app/src/main/java/de/mimuc/senseeverything/workers/conversation/VadReader.kt:37-46 | one entry per group key present, each the group's length divided by the total length |
| VadReader.GroupWithinTotal | app-android/app/src/main/java/de/mimuc/senseeverything/workers/conversation/VadReader.kt:38-43 | with no negative length, a group's length lies between 0 and the total |
| VadReader.LabelSharesAreFractions | app-android/app/src/main/java/de/mimuc/senseeverything/workers/conversation/VadReader.kt:37-46 | when there is audio, every share is finite and lies in [0, 1] |
| AudioSegmentReader.Segmenter.constructor | app-android/app/src/main/java/de/mimuc/senseeverything/workers/conversation/AudioSegmentReader.kt:5-8 | a new reader is at position 0 with an empty open section and no previous label |
| BucketedWidget.ParseBucket | app-android/app/src/main/java/de/mimuc/senseeverything/helpers/BucketedWidget.kt:34-37 | a bucket text that reads yields the start and end hours that the current-bucket search reads from the same text |
| BucketedWidget.TimeBucketsFormatted | app-android/app/src/main/java/de/mimuc/senseeverything/helpers/BucketedWidget.kt:5-18 | each of the twelve bucket texts is the formatting of its two-hour bounds |
| BucketedWidget.ParseFormatted | app-android/app/src/main/java/de/mimuc/senseeverything/helpers/BucketedWidget.kt:33-37 | reading a formatted bucket gives back its hours and minutes (round trip) |
| BucketedWidget.TimeBucketsParse | app-android/app/src/main/java/de/mimuc/senseeverything/helpers/BucketedWidget.kt:5-18 | there are twelve buckets and each reads as its bounds |
| BucketedWidget.BoundsCoverDay | app-android/app/src/main/java/de/mimuc/senseeverything/helpers/BucketedWidget.kt:5-18 | the buckets start at 00:00, end at 23:59, and each ends where the next starts |
| BucketedWidget.HourInBucket | app-android/app/src/main/java/de/mimuc/senseeverything/helpers/BucketedWidget.kt:25-29 | an hour lies in bucket i exactly when it is below 23 and i is the hour halved |
| BucketedWidget.CurrentTimeBucketByHour | app-android/app/src/main/java/de/mimuc/senseeverything/helpers/BucketedWidget.kt:20-30 | before 23:00 the current bucket is the one of the hour halved; from 23:00 it is "Unknown" |
| BucketedWidget.ParseTimebucketOnDay | app-android/app/src/main/java/de/mimuc/senseeverything/helpers/BucketedWidget.kt:33-49 | a well-formed bucket reads as two instants on the given day, at the bucket's hours and minutes with no seconds, ordered exactly when the bucket's start is not after its end |
| ChangePhaseReceiver.PendingIntentId | app-android/app/src/main/java/de/mimuc/senseeverything/study/ChangePhaseReceiver.kt:47-49 | the id is 20000 + fromDay taken modulo 2^32 into the 32-bit range |
| ChangePhaseReceiver.PendingIntentIdsDistinct | app-android/app/src/main/java/de/mimuc/senseeverything/study/ChangePhaseReceiver.kt:47-49 | phases with different start days (in the Int range) get different ids |
| ChangePhaseReceiver.TimestampToNextFullDay | app-android/app/src/main/java/de/mimuc/senseeverything/study/ChangePhaseReceiver.kt:109-118 | the result is a midnight, and the instant fromDay days after the study start lies in the day it begins |
| ChangePhaseReceiver.NextFullDayIsShiftedMidnight | app-android/app/src/main/java/de/mimuc/senseeverything/study/ChangePhaseReceiver.kt:109-118 | the result is the midnight of the study start shifted by fromDay days |
| ChangePhaseReceiver.TriggerTimestampSpec | app-android/app/src/main/java/de/mimuc/senseeverything/study/ChangePhaseReceiver.kt:74-79 | a phase starting on day 0 changes five minutes after the study start; any other at the midnight fromDay days after it |
| ChangePhaseReceiver.PastPhaseSkipped | app-android/app/src/main/java/de/mimuc/senseeverything/study/ChangePhaseReceiver.kt:81-84 | a phase whose change lies in the past arms nothing and leaves the alarm table unchanged |
| ChangePhaseReceiver.FreshPhaseArmedAtTrigger | app-android/app/src/main/java/de/mimuc/senseeverything/study/ChangePhaseReceiver.kt:86-105 | a phase without a stored alarm is armed once, at its trigger time, with a new request code, and its alarm is stored |
| ChangePhaseReceiver.StoredPhaseKeepsStoredTime | app-android/app/src/main/java/de/mimuc/senseeverything/study/ChangePhaseReceiver.kt:86-105 | a phase with a stored alarm is armed at the stored alarm's time and code; the table is unchanged |
| ChangePhaseReceiver.ArmsIfNotPast | app-android/app/src/main/java/de/mimuc/senseeverything/study/ChangePhaseReceiver.kt:68-106 | one phase is armed exactly when its trigger is not in the past |
| ChangePhaseReceiver.SchedulePhasesArmsFuturePhases | app-android/app/src/main/java/de/mimuc/senseeverything/study/ChangePhaseReceiver.kt:64-107 | the phases armed are exactly those whose trigger is not in the past, in order |
| ChangePhaseReceiver.SchedulePhasesAppends | app-android/app/src/main/java/de/mimuc/senseeverything/study/ChangePhaseReceiver.kt:86-91 | scheduling only adds alarm rows |
| ChangePhaseReceiver.FirstRun | app-android/app/src/main/java/de/mimuc/senseeverything/study/ChangePhaseReceiver.kt:64-107 | after a run every future phase has a stored alarm, and the run armed each at its stored alarm |
| ChangePhaseReceiver.SecondRun | app-android/app/src/main/java/de/mimuc/senseeverything/study/ChangePhaseReceiver.kt:64-107 | when every future phase already has a stored alarm, a run changes no row and re-arms each at its stored alarm |
| ChangePhaseReceiver.ReschedulingIsIdempotent | app-android/app/src/main/java/de/mimuc/senseeverything/study/ChangePhaseReceiver.kt:53-62 | running the schedule a second time on its own result changes nothing and arms the same alarms |
| ChangePhaseReceiver.SchedulePhaseChanges | app-android/app/src/main/java/de/mimuc/senseeverything/study/ChangePhaseReceiver.kt:64-107 | no phases arm nothing and change nothing; otherwise the new table and the armed alarms are those of SchedulePhases |
| ChunkedUpload.ToInt | app-android/app/src/main/java/de/mimuc/senseeverything/api/ChunkedUploadHelper.kt:117 | Kotlin's Double-to-Int conversion: the result is in the Int range and equals the value when that is in range |
| ChunkedUpload.InitialChunkSize | app-android/app/src/main/java/de/mimuc/senseeverything/api/ChunkedUploadHelper.kt:114-119 | the starting chunk size is at least the minimum, at most the batch limit when that limit is itself above the minimum, and is the minimum, the limit or the estimate from the measured bytes per item |
| ChunkedUpload.Take | app-android/app/src/main/java/de/mimuc/senseeverything/api/ChunkedUploadHelper.kt:129 | `take(n)` for a count that is not negative: the first min(n, size) items |
| ChunkedUpload.Step | app-android/app/src/main/java/de/mimuc/senseeverything/api/ChunkedUploadHelper.kt:128-173 | one round of the loop keeps the chunk size at least the minimum and either fails, consumes items, or keeps the items and halves the chunk size |
| ChunkedUpload.StepAccounted | app-android/app/src/main/java/de/mimuc/senseeverything/api/ChunkedUploadHelper.kt:128-173 | one round keeps the accounting: sent chunks, dropped items and remaining items together are the data, one error per dropped item |
| ChunkedUpload.RunAccounted | app-android/app/src/main/java/de/mimuc/senseeverything/api/ChunkedUploadHelper.kt:128-173 | the whole loop keeps the accounting, and it stops without an exception exactly when no item remains |
| ChunkedUpload.ChunkedUploadLosesNothing | app-android/app/src/main/java/de/mimuc/senseeverything/api/ChunkedUploadHelper.kt:104-182 | the sent and dropped items are a permutation of the data exactly when no exception escaped; each drop has its error; every chunk has between 1 and the starting size items; the outcome is the exception or the result built from the counts |
| ChunkedUpload.EmptyDataSendsNothing | app-android/app/src/main/java/de/mimuc/senseeverything/api/ChunkedUploadHelper.kt:58-61 | no data gives an empty result without any request |
| ChunkedUpload.FastPathOneRequest | app-android/app/src/main/java/de/mimuc/senseeverything/api/ChunkedUploadHelper.kt:70-88 | data below the safe size is sent in one request: accepted it gives a one-chunk fast-path result, refused it throws that error |
| ChunkedUpload.UploadInChunks | app-android/app/src/main/java/de/mimuc/senseeverything/api/ChunkedUploadHelper.kt:104-182 | the loop returns what the specification of the chunked upload gives |
| ChunkedUpload.UploadWithSizeBasedChunking | app-android/app/src/main/java/de/mimuc/senseeverything/api/ChunkedUploadHelper.kt:49-99 | returns what the size-based specification gives: empty, one request, or the chunked upload |
| Clock.DayStart | app-android/app/src/main/java/de/mimuc/senseeverything/study/ChangePhaseReceiver.kt:110-117 | the midnight at or before an instant: a multiple of a day, at most a day earlier |
| Clock.HourOfDay | app-android/app/src/main/java/de/mimuc/senseeverything/helpers/BucketedWidget.kt:22 | `get(HOUR_OF_DAY)` lies in 0 .. 23 |
| Clock.ReadBack | app-android/app/src/main/java/de/mimuc/senseeverything/service/esm/EsmHandler.kt:550-553 | an instant built from a midnight, an hour, a minute and a remainder reads back as exactly those fields |
| Clock.ShiftByDays | app-android/app/src/main/java/de/mimuc/senseeverything/service/esm/EsmHandler.kt:546 | adding whole days moves the midnight by the same days and keeps the time of day |
| Clock.AtHourMinuteReadBack | app-android/app/src/main/java/de/mimuc/senseeverything/service/esm/EsmHandler.kt:544-545 | setting the hour and minute keeps the day and the seconds, and the fields read back as set |
| Clock.ZeroedOrder | app-android/app/src/main/java/de/mimuc/senseeverything/helpers/BucketedWidget.kt:38-47 | two times set on the same day with zero seconds are ordered as their minutes of the day |
| Completion.PushedMeansConditions | backend/src/controllers/completion.ts:72-103 | the array of checked results is all true exactly when every EMA and sensing condition of the label holds |
| Completion.MeetsAllCompletionConditions | backend/src/controllers/completion.ts:72-103 | returns true exactly when every checked condition holds: an EMA item needs at least its value of answered questionnaires, a sensing item at least its value of days with sensor data; other item types are not checked |
| Completion.SingleConditions | backend/src/controllers/completion.ts:80-102 | no conditions hold trivially; a single EMA or sensing condition holds exactly when its count reaches its value; an unknown item type imposes nothing |
| Completion.MonotoneInCounts | backend/src/controllers/completion.ts:72-103 | more answered questionnaires or more sensing days never turn a met label into an unmet one |
| Completion.GetCompletionLabels | backend/src/controllers/completion.ts:51-70 | one label per key of the completion tracking, each true exactly when all its conditions are met |
| Completion.GetCompletion | backend/src/controllers/completion.ts:20-49 | 403 exactly without an enrolment, 404 exactly without its study, 400 exactly when the study does not track completion, 500 exactly when a count query runs and fails, and otherwise the labels of GetCompletionLabels |
| DataStore.RecoverAsWritten | app-android/app/src/main/java/de/mimuc/senseeverything/data/DataStoreManager.kt:107-131 | the recovery as written never yields a salt and agrees with the full recovery on every other field |
| DataStore.SaltLostOnRead | app-android/app/src/main/java/de/mimuc/senseeverything/data/DataStoreManager.kt:107-148 | a stored salt does not survive a write and a read: the settings read back differ and have no salt |
| DataStore.RecoverRoundTrip | app-android/app/src/main/java/de/mimuc/senseeverything/data/DataStoreManager.kt:107-157 | with the salt copied, any settings whose nullable defaults are set read back as written |
| DataStore.NothingStoredReadsAsDefault | app-android/app/src/main/java/de/mimuc/senseeverything/data/DataStoreManager.kt:89-131 | a stored file with no field reads as the default settings |
| DataStore.RecoverKeepsPresentFields | app-android/app/src/main/java/de/mimuc/senseeverything/data/DataStoreManager.kt:107-131 | each present field is kept, each missing one takes its default (study id -1, token "", not enrolled, welcome step) |
| DataStore.SaveChangesOnlyItsFields | app-android/app/src/main/java/de/mimuc/senseeverything/data/DataStoreManager.kt:178-436 | each save changes its own fields and the update time, which becomes now, and no other field |
| DataStore.SavedValuesReadBack | app-android/app/src/main/java/de/mimuc/senseeverything/data/DataStoreManager.kt:178-436 | each save stores the values it is given, and saving keeps the nullable defaults set |
| DataStore.StudyDayCounts | app-android/app/src/main/java/de/mimuc/senseeverything/data/DataStoreManager.kt:452-458 | on the k-th midnight after the start day the study day is k + 1 |
| DataStore.StartDayIsDayOne | app-android/app/src/main/java/de/mimuc/senseeverything/data/DataStoreManager.kt:452-458 | the day the study started is day 1 |
| DataStore.PhaseOnDay | app-android/app/src/main/java/de/mimuc/senseeverything/data/DataStoreManager.kt:460-467 | the first phase, in list order, that covers the day; none exactly when no phase covers it or there are no phases |
| DataStore.CurrentDisplayStrategy | app-android/app/src/main/java/de/mimuc/senseeverything/data/DataStoreManager.kt:476-487 | a strategy exactly when there is a current phase, and then that phase's strategy |
| DataStore.ConsecutivePhasesPickTheirDay | app-android/app/src/main/java/de/mimuc/senseeverything/data/DataStoreManager.kt:460-467 | when phases follow one another without gaps, the phase found for a day is the one covering it |
| DataStore.PhasesAscend | app-android/app/src/main/java/de/mimuc/senseeverything/data/DataStoreManager.kt:460-467 | consecutive phases without gaps end before every later phase starts |
| DataStore.DataStoreManager.constructor | app-android/app/src/main/java/de/mimuc/senseeverything/data/DataStoreManager.kt:139-148 | the settings are the stored file recovered with defaults, by the corrected reading that keeps the salt (see Findings) |
| DataStore.DataStoreManager.EraseAllData | app-android/app/src/main/java/de/mimuc/senseeverything/data/DataStoreManager.kt:172-176 | the settings become the defaults |
| DataStore.DataStoreManager.Save | app-android/app/src/main/java/de/mimuc/senseeverything/data/DataStoreManager.kt:178-436 | the settings become the old ones with the update applied at now |
| DataStore.DataStoreManager.Token | app-android/app/src/main/java/de/mimuc/senseeverything/data/DataStoreManager.kt:188-195 | the stored token, or "" when it is null |
| DataStore.DataStoreManager.StudyDay | app-android/app/src/main/java/de/mimuc/senseeverything/data/DataStoreManager.kt:452-458 | the study day of now |
| DataStore.DataStoreManager.GetCurrentStudyPhase | app-android/app/src/main/java/de/mimuc/senseeverything/data/DataStoreManager.kt:460-467 | the phase PhaseOnDay finds for the current study day |
| EsmHandler.MatchEventTriggerSpec | app-android/app/src/main/java/de/mimuc/senseeverything/service/esm/EsmHandler.kt:74-83 | the matched event trigger is the first event trigger with the requested id for an "open_questionnaire" event with an id, else the first with the event's name; there is none exactly when no event trigger qualifies |
| EsmHandler.FindInFiltered | app-android/app/src/main/java/de/mimuc/senseeverything/service/esm/EsmHandler.kt:75-83 | finding in the list filtered to one kind of trigger is finding the first trigger of that kind that passes the test |
| EsmHandler.PushActionSpec | app-android/app/src/main/java/de/mimuc/senseeverything/service/esm/EsmHandler.kt:103-117 | an event hands on at most one floating-widget trigger: exactly when it is "put_notification_trigger" with a trigger id and a widget trigger of that id exists, passing the event's source id on |
| EsmHandler.PushedNotificationTriggerSpec | app-android/app/src/main/java/de/mimuc/senseeverything/service/esm/EsmHandler.kt:156-211 | a notification is made exactly when the source id is given, its pending questionnaire names a notification trigger and that trigger is found; it is Planned, RuleBased, valid from now, in the source notification's time bucket, with the widget trigger's name, priority, modality and questionnaire, and is pushed at once exactly for the Push modality |
| EsmHandler.Handler.InitializeTriggers | app-android/app/src/main/java/de/mimuc/senseeverything/service/esm/EsmHandler.kt:56-64 | a handler that holds triggers keeps them; an empty one takes the triggers of every stored questionnaire, in order |
| EsmHandler.FlattenMembers | app-android/app/src/main/java/de/mimuc/senseeverything/service/esm/EsmHandler.kt:62 | the flattened trigger list holds exactly the triggers of the questionnaires |
| EsmHandler.InitializeTwice | app-android/app/src/main/java/de/mimuc/senseeverything/service/esm/EsmHandler.kt:56-64 | a second initialisation changes nothing once triggers were found; a handler whose questionnaires hold no trigger reads them again |
| EsmHandler.HalfTowardZero | app-android/app/src/main/java/de/mimuc/senseeverything/service/esm/EsmHandler.kt:321 | Kotlin's x / 2 on Int: the half rounded toward zero, for negative as well as non-negative x |
| EsmHandler.RandomInRange | app-android/app/src/main/java/de/mimuc/senseeverything/service/esm/EsmHandler.kt:321 | the random value lies in the closed range, and there is one exactly when the range is not empty (Kotlin throws otherwise) |
| EsmHandler.MinutesToAddBounds | app-android/app/src/main/java/de/mimuc/senseeverything/service/esm/EsmHandler.kt:316-323 | the minutes added are the distance plus at most half the tolerance either way, and they exist exactly for a tolerance of -1 or more |
| EsmHandler.IsInTimeBucketHours | app-android/app/src/main/java/de/mimuc/senseeverything/service/esm/EsmHandler.kt:347-352 | for a bucket "HH:MM-HH:MM" the answer is whether startHour <= hour < endHour; the minutes play no part, so two times in the same hour agree |
| EsmHandler.BucketStartFormatted | app-android/app/src/main/java/de/mimuc/senseeverything/service/esm/EsmHandler.kt:336-340 | the restart reads the bucket's own start hour and minute back from its text |
| EsmHandler.NextRandomTimeFirstRound | app-android/app/src/main/java/de/mimuc/senseeverything/service/esm/EsmHandler.kt:324-344 | when the first round lands in the bucket its time is the answer |
| EsmHandler.NextRandomTimeRestarts | app-android/app/src/main/java/de/mimuc/senseeverything/service/esm/EsmHandler.kt:331-341 | when a round lands outside the bucket the search goes on from the next day's bucket start, with the current seconds, using the next draw |
| EsmHandler.NegateInt | app-android/app/src/main/java/de/mimuc/senseeverything/service/esm/EsmHandler.kt:333 | taking the minutes back does not wrap for any Int other than Int.MIN_VALUE |
| EsmHandler.RestartPoint | app-android/app/src/main/java/de/mimuc/senseeverything/service/esm/EsmHandler.kt:333-340 | the restart point is on the next day, at the bucket start hour and minute, with the seconds of the current time |
| EsmHandler.NextRandomTimeSound | app-android/app/src/main/java/de/mimuc/senseeverything/service/esm/EsmHandler.kt:316-345 | a found time lies in the bucket's hours and is distance plus or minus half the tolerance minutes after now or after the bucket start of a later day |
| EsmHandler.FirstRoundReaches | app-android/app/src/main/java/de/mimuc/senseeverything/service/esm/EsmHandler.kt:320-328 | a time the first round reaches is reached from a round started now |
| EsmHandler.LaterRoundReaches | app-android/app/src/main/java/de/mimuc/senseeverything/service/esm/EsmHandler.kt:333-341 | a time reached from the start of a later day, reached in turn from a later day, is reached from a later day |
| EsmHandler.EmptyHourRangeNeverFound | app-android/app/src/main/java/de/mimuc/senseeverything/service/esm/EsmHandler.kt:331-341 | a bucket whose end hour is not after its start hour holds no hour, so the search never finds a time |
| EsmHandler.ShouldScheduleOnSameDayIffLater | app-android/app/src/main/java/de/mimuc/senseeverything/service/esm/EsmHandler.kt:561-572 | the notification is due today exactly when hour:minute is later than the current hour and minute |
| EsmHandler.CalculateNextNotificationTimeNextDay | app-android/app/src/main/java/de/mimuc/senseeverything/service/esm/EsmHandler.kt:538-559 | the time is on the day after the given one, at hour:minute, with the seconds of the clock the fresh Calendar reads |
| EsmHandler.GetNextNotificationSpec | app-android/app/src/main/java/de/mimuc/senseeverything/service/esm/EsmHandler.kt:513-536 | the remaining days count one down, and the time is today exactly on the first day before hour:minute, else tomorrow, always at hour:minute |
| EsmHandler.ScheduleNextPeriodicNotificationSpec | app-android/app/src/main/java/de/mimuc/senseeverything/service/esm/EsmHandler.kt:455-511 | no alarm exactly when no day remains; an unreadable time exactly when days remain and "HH:MM" does not parse; else an alarm under the trigger's id with one day fewer, the same total, at hour:minute today or tomorrow |
| EsmHandler.Handler.constructor | app-android/app/src/main/java/de/mimuc/senseeverything/service/esm/EsmHandler.kt:54 | a new handler holds no triggers |
| EsmResponse.FetchOrFailQuestionnaire | backend/src/controllers/esmResponse.ts:54-76 | 400 exactly for a path its schema refuses, 404 exactly when the questionnaire is unknown, 403 exactly when it belongs to another study, and otherwise the questionnaire |
| EsmResponse.FindAnswer | backend/src/controllers/esmResponse.ts:83-86 | the answer found is a stored answer for the pending questionnaire; none exactly when no stored answer is for it |
| EsmResponse.FindTrigger | backend/src/controllers/esmResponse.ts:125-129 | the trigger found is a stored row of the enrolment with the uid; none exactly when no row matches |
| EsmResponse.UpdateRows | backend/src/controllers/esmResponse.ts:134-138 | the update keeps the table's length and replaces exactly the rows of the enrolment and uid with the uploaded trigger |
| EsmResponse.SaveAnswer | backend/src/controllers/esmResponse.ts:78-119 | an answer already stored as completed is skipped with its stored id and nothing changes; any other answer is added as a new row under the next serial id and reported as created |
| EsmResponse.FindAfterUpdate | backend/src/controllers/esmResponse.ts:134-141 | after an update the lookup of the updated key finds the uploaded trigger (when a row existed), and every other key finds what it found before |
| EsmResponse.FindAfterAppend | backend/src/controllers/esmResponse.ts:142-149 | after a trigger is added, lookups find the first matching row as before, or the new row when nothing matched |
| EsmResponse.FindAnswerAfterAppend | backend/src/controllers/esmResponse.ts:105-116 | after an answer is added, the lookup by pending questionnaire finds the first stored answer as before, or the new one when none was stored |
| EsmResponse.LastWriterWins | backend/src/controllers/esmResponse.ts:121-153 | saving a trigger succeeds and reports its uid; a stored copy at least as recent is kept and the call skipped, an older one replaced (updated), a missing one created; the stored copy is then the more recent one; other triggers and the answers are untouched |
| EsmResponse.TriggerUploadIdempotent | backend/src/controllers/esmResponse.ts:130-132 | uploading the same trigger twice: the second upload is skipped and changes nothing |
| EsmResponse.CompletedAnswerStoredOnce | backend/src/controllers/esmResponse.ts:87-95 | after a completed answer is stored for a pending questionnaire that had none, the next upload for it is skipped with the stored row's id and changes nothing |
| EsmResponse.UnfinishedAnswerIsNotUpdated | backend/src/controllers/esmResponse.ts:97-118 | an answer whose stored copy is not completed is added as one more row, the old rows are kept and the lookup still finds the first one |
| EsmResponse.PostAnswerKeepsStore | backend/src/controllers/esmResponse.ts:155-178 | every request keeps the answer ids distinct; a path or questionnaire error replies with its status code and writes nothing; a body its schema refuses replies 400, checked only after the questionnaire |
| EsmResponse.SaveTriggerKeepsAnswers | backend/src/controllers/esmResponse.ts:121-153 | storing a trigger succeeds and leaves the answers and the next answer id alone |
| EsmResponse.SaveAnswerKeepsStore | backend/src/controllers/esmResponse.ts:78-119 | storing an answer succeeds and keeps the answer ids distinct and below the next serial id |
| EsmResponse.AnswerDatabase.GetESMAnswerForPendingQuestionnaireId | backend/src/controllers/esmResponse.ts:83-86 | reads the first stored answer for the pending questionnaire, or none |
| EsmResponse.AnswerDatabase.GetNotificationTriggerByLocalId | backend/src/controllers/esmResponse.ts:125-129 | reads the first stored trigger of the enrolment with the uid, or none |
| EsmResponse.AnswerDatabase.UpdateNotificationTrigger | backend/src/controllers/esmResponse.ts:135-138 | replaces the matching rows with the upload and returns it, or nothing when no row matched; nothing else changes |
| EsmResponse.AnswerDatabase.CreateNotificationTrigger | backend/src/controllers/esmResponse.ts:143-146 | appends one row for the enrolment and returns the trigger; nothing else changes |
| EsmResponse.AnswerDatabase.CreateESMAnswer | backend/src/controllers/esmResponse.ts:105-116 | appends the answer row under the next serial id, with the trigger's uid, and advances the id |
| EsmResponse.EsmAnswerController.SaveOrUpdateNotificationTrigger | backend/src/controllers/esmResponse.ts:121-153 | the result and the new tables are those of SaveTrigger on the old tables |
| EsmResponse.EsmAnswerController.SaveOrUpdateAnswer | backend/src/controllers/esmResponse.ts:78-119 | the result and the new tables are those of SaveAnswer on the old tables |
| EsmResponse.EsmAnswerController.PostAnswerRoute | backend/src/controllers/esmResponse.ts:155-178 | the reply and the new tables are those of PostAnswer on the old tables |
| EsmResponse.EsmAnswerController.constructor | backend/src/controllers/esmResponse.ts:48-52 | the controller works on the answer repository it is given |
| FloatingWidgetScheduler.DistanceExact | app-android/app/src/main/java/de/mimuc/senseeverything/service/esm/FloatingWidgetNotificationScheduler.kt:274 | up to 35 791 minutes the Int product distanceMinutes * 60 * 1000 is the exact number of milliseconds |
| FloatingWidgetScheduler.DistanceWraps | app-android/app/src/main/java/de/mimuc/senseeverything/service/esm/FloatingWidgetNotificationScheduler.kt:274 | from 35 792 minutes on, that Int product wraps to a negative distance |
| FloatingWidgetScheduler.LongMinutesExact | app-android/app/src/main/java/de/mimuc/senseeverything/service/esm/FloatingWidgetNotificationScheduler.kt:59 | a tolerance or delay of up to 35 791 394 minutes, multiplied as Int then Long, is the exact number of milliseconds |
| FloatingWidgetScheduler.ApplyTimeoutTrigger | app-android/app/src/main/java/de/mimuc/senseeverything/service/esm/FloatingWidgetNotificationScheduler.kt:50-67 | the timeout notification keeps the bucket, status and creation time of the notification it follows, takes the timeout trigger's name, priority, modality, source and questionnaire, and comes its delay later |
| FloatingWidgetScheduler.TimeoutAfterDelay | app-android/app/src/main/java/de/mimuc/senseeverything/service/esm/FloatingWidgetNotificationScheduler.kt:59 | with a delay in Int range the timeout comes exactly that many minutes after the notification, never before it |
| FloatingWidgetScheduler.SlotsOfSpec | app-android/app/src/main/java/de/mimuc/senseeverything/service/esm/FloatingWidgetNotificationScheduler.kt:259-262 | the parsed buckets keep the order and names of the trigger's buckets with the start and end parseTimebucket reads on the day; parsing fails exactly when some bucket does not parse |
| FloatingWidgetScheduler.BucketKeys | app-android/app/src/main/java/de/mimuc/senseeverything/service/esm/FloatingWidgetNotificationScheduler.kt:112 | the keys of groupBy are distinct, cover every trigger's bucket and are all buckets of some trigger |
| FloatingWidgetScheduler.CandidateOfBucket | app-android/app/src/main/java/de/mimuc/senseeverything/service/esm/FloatingWidgetNotificationScheduler.kt:135-139 | the candidate of a bucket is an unanswered wave-breaking trigger of it, no earlier than any other there, and exists whenever one does |
| Seqs.MaxByFirst | app-android/app/src/main/java/de/mimuc/senseeverything/service/esm/FloatingWidgetNotificationScheduler.kt:139 | `maxByOrNull` picks the first element with the greatest key: every element before it has a strictly smaller key, so among triggers with the same `validFrom` the earliest in the list wins |
| Seqs.SortByStable | app-android/app/src/main/java/de/mimuc/senseeverything/service/esm/FloatingWidgetNotificationScheduler.kt:128 | `sortedBy` is stable: for every key, the elements with that key keep their input order, so buckets with the same start stay in `groupBy` order |
| FloatingWidgetScheduler.LatestWaveBreakingGrows | app-android/app/src/main/java/de/mimuc/senseeverything/service/esm/FloatingWidgetNotificationScheduler.kt:133-148 | the loop over the ended buckets only replaces its best by a later trigger, and what it keeps is its start or an eligible trigger |
| FloatingWidgetScheduler.LatestWaveBreakingBest | app-android/app/src/main/java/de/mimuc/senseeverything/service/esm/FloatingWidgetNotificationScheduler.kt:133-148 | the loop's result is no earlier than any eligible trigger of a bucket it visits |
| FloatingWidgetScheduler.SortedSlots | app-android/app/src/main/java/de/mimuc/senseeverything/service/esm/FloatingWidgetNotificationScheduler.kt:125-128 | the bucket keys parse on the day, sorted by start, and every trigger's bucket is among them |
| FloatingWidgetScheduler.SelectWaveBreaking | app-android/app/src/main/java/de/mimuc/senseeverything/service/esm/FloatingWidgetNotificationScheduler.kt:105-153 | when some unanswered wave-breaking trigger's bucket has ended, the result is such a trigger and no other such trigger is later |
| FloatingWidgetScheduler.SelectCurrentBucket | app-android/app/src/main/java/de/mimuc/senseeverything/service/esm/FloatingWidgetNotificationScheduler.kt:114-165 | when no unanswered wave-breaking trigger's bucket has ended, the result is the latest unanswered trigger of the first bucket holding the current time, or nothing |
| FloatingWidgetScheduler.SelectFromList | app-android/app/src/main/java/de/mimuc/senseeverything/service/esm/FloatingWidgetNotificationScheduler.kt:105-110 | with no triggers nothing is chosen, and whatever is chosen is one of the triggers |
| FloatingWidgetScheduler.LatestOpenIsLatest | app-android/app/src/main/java/de/mimuc/senseeverything/service/esm/FloatingWidgetNotificationScheduler.kt:156-161 | the fallback is an unanswered trigger of the current bucket no earlier than any other, and is missing exactly when all of them are answered |
| FloatingWidgetScheduler.LatestValidTriggerNotInFuture | app-android/app/src/main/java/de/mimuc/senseeverything/service/esm/FloatingWidgetNotificationScheduler.kt:78-103 | the trigger chosen for a time is one of the day's rows and is already valid at that time |
| FloatingWidgetScheduler.NextLong | app-android/app/src/main/java/de/mimuc/senseeverything/service/esm/FloatingWidgetNotificationScheduler.kt:295 | Random.nextLong(0, bound) gives a value in [0, bound), and throws exactly for an empty range |
| FloatingWidgetScheduler.SlotTimeBounds | app-android/app/src/main/java/de/mimuc/senseeverything/service/esm/FloatingWidgetNotificationScheduler.kt:270-300 | a bucket is skipped exactly when its earliest time is past its end; otherwise the time lies between the earliest time and the end, within the tolerance of the earliest time, and is the earliest time without a tolerance; only a negative tolerance throws |
| FloatingWidgetScheduler.SlotTimeDefined | app-android/app/src/main/java/de/mimuc/senseeverything/service/esm/FloatingWidgetNotificationScheduler.kt:282-297 | a tolerance of 0 to 35 791 394 minutes never makes the random range empty |
| FloatingWidgetScheduler.PlanSlotsPlaced | app-android/app/src/main/java/de/mimuc/senseeverything/service/esm/FloatingWidgetNotificationScheduler.kt:267-318 | every planned notification is a Planned notification of the trigger inside one of the buckets, at most one per bucket |
| FloatingWidgetScheduler.PlanSlotsSpaced | app-android/app/src/main/java/de/mimuc/senseeverything/service/esm/FloatingWidgetNotificationScheduler.kt:271-275 | consecutive notifications are at least the distance apart, and the first is the distance after the last one planned before |
| FloatingWidgetScheduler.PlanSlotsNoTolerance | app-android/app/src/main/java/de/mimuc/senseeverything/service/esm/FloatingWidgetNotificationScheduler.kt:282-284 | without a tolerance the plan does not depend on the random draws |
| FloatingWidgetScheduler.PlanSlotsDefined | app-android/app/src/main/java/de/mimuc/senseeverything/service/esm/FloatingWidgetNotificationScheduler.kt:282-297 | a tolerance in range never makes planning fail |
| FloatingWidgetScheduler.PlanDayPlaced | app-android/app/src/main/java/de/mimuc/senseeverything/service/esm/FloatingWidgetNotificationScheduler.kt:253-321 | one day's plan holds at most one notification per bucket, each a Planned notification of the trigger inside its bucket on that day; it fails only when a bucket does not parse or the tolerance is out of range |
| FloatingWidgetScheduler.PlanNotificationsForDay | app-android/app/src/main/java/de/mimuc/senseeverything/service/esm/FloatingWidgetNotificationScheduler.kt:253-321 | the day's plan is PlanDay: buckets parsed on the day, sorted by start, one notification per bucket that still fits |
| FloatingWidgetScheduler.NotificationTimeInBucket | app-android/app/src/main/java/de/mimuc/senseeverything/service/esm/FloatingWidgetNotificationScheduler.kt:270-300 | the loop body's time for one bucket is SlotTime |
| FloatingWidgetScheduler.PlanSortedBuckets | app-android/app/src/main/java/de/mimuc/senseeverything/service/esm/FloatingWidgetNotificationScheduler.kt:265-320 | the loop over the sorted buckets gives PlanSlots from no last notification |
| FloatingWidgetScheduler.PlanNotificationsForTrigger | app-android/app/src/main/java/de/mimuc/senseeverything/service/esm/FloatingWidgetNotificationScheduler.kt:238-251 | the plan is PlanDays: the plans of each day from emaStart to studyEnd, in order |
| FloatingWidgetScheduler.PlanDaysPlaced | app-android/app/src/main/java/de/mimuc/senseeverything/service/esm/FloatingWidgetNotificationScheduler.kt:238-251 | every notification planned for a trigger is a Planned notification of it inside one of its buckets on one of the days from emaStart to studyEnd |
| FloatingWidgetScheduler.Timeouts | app-android/app/src/main/java/de/mimuc/senseeverything/service/esm/FloatingWidgetNotificationScheduler.kt:229-232 | one timeout twin per planned notification, in order |
| FloatingWidgetScheduler.AppendTimeouts | app-android/app/src/main/java/de/mimuc/senseeverything/service/esm/FloatingWidgetNotificationScheduler.kt:229-232 | the inner loop appends the timeout twin of each planned notification |
| FloatingWidgetScheduler.ScheduleAllNotificationsWithTimeout | app-android/app/src/main/java/de/mimuc/senseeverything/service/esm/FloatingWidgetNotificationScheduler.kt:212-236 | the schedule is ScheduleAll: each trigger of the phase with source Scheduled, planned in turn, followed by the timeout twins of its plan when its timeout trigger exists |
| FloatingWidgetScheduler.TimeoutTwins | app-android/app/src/main/java/de/mimuc/senseeverything/service/esm/FloatingWidgetNotificationScheduler.kt:227-233 | without a timeout trigger a trigger adds just its plan; with one, its plan is followed by one twin per notification, in the same bucket, with the same status, the delay later |
| FloatingWidgetScheduler.TwinScheduled | app-android/app/src/main/java/de/mimuc/senseeverything/service/esm/FloatingWidgetNotificationScheduler.kt:227-233 | the timeout twin of a placed notification is scheduled for its trigger |
| FloatingWidgetScheduler.WithTimeoutsScheduled | app-android/app/src/main/java/de/mimuc/senseeverything/service/esm/FloatingWidgetNotificationScheduler.kt:224-233 | everything one trigger adds to its placed notifications is scheduled for it |
| FloatingWidgetScheduler.ScheduleFromScheduled | app-android/app/src/main/java/de/mimuc/senseeverything/service/esm/FloatingWidgetNotificationScheduler.kt:223-234 | everything the loop schedules is scheduled for one of the triggers it visits |
| FloatingWidgetScheduler.ScheduleAllScheduled | app-android/app/src/main/java/de/mimuc/senseeverything/service/esm/FloatingWidgetNotificationScheduler.kt:218-236 | every scheduled notification belongs to a trigger of the phase with source Scheduled, or is the timeout twin of one |
| FloatingWidgetScheduler.ScheduleAllNothingToDo | app-android/app/src/main/java/de/mimuc/senseeverything/service/esm/FloatingWidgetNotificationScheduler.kt:219-221 | with no trigger of the phase with source Scheduled nothing is scheduled |
| ElementValues.ListToString | app-android/app/src/main/java/de/mimuc/senseeverything/helpers/QuestionnaireRuleEvaluator.kt:58 | a list's text starts with '[' and ends with ']' |
| ElementValues.ListToStringExamples | app-android/app/src/main/java/de/mimuc/senseeverything/helpers/QuestionnaireRuleEvaluator.kt:57-62 | the text of an empty list is "[]", of one item "[Yes]", and items are separated by a comma and a space: ["a", "b"] gives "[a, b]" |
| ElementValues.Get | app-android/app/src/main/java/de/mimuc/senseeverything/service/floatingWidget/FloatingWidgetViewModel.kt:20 | reading a key of the answer map gives nothing exactly when the key is absent, and otherwise the value stored under it |
| ElementValues.Put | app-android/app/src/main/java/de/mimuc/senseeverything/service/floatingWidget/FloatingWidgetViewModel.kt:63-65 | storing under a present key keeps the map's size; under a new key it grows by one |
| ElementValues.PutGet | app-android/app/src/main/java/de/mimuc/senseeverything/service/floatingWidget/FloatingWidgetViewModel.kt:45-51 | after storing, the key reads the stored value, every other key reads as before, and the keys are the old keys plus this one |
| FloatingWidgetState.NextStep | app-android/app/src/main/java/de/mimuc/senseeverything/service/floatingWidget/FloatingWidgetViewModel.kt:54 | the next step is the nextStep of the first option whose label is the selected button, and there is none when no option has that label or that option has no next step |
| FloatingWidgetState.InitialValuesKeys | app-android/app/src/main/java/de/mimuc/senseeverything/service/floatingWidget/FloatingWidgetViewModel.kt:34-38 | initialising gives a value to exactly the questionnaire's element ids |
| FloatingWidgetState.InitialValuesEmpty | app-android/app/src/main/java/de/mimuc/senseeverything/service/floatingWidget/FloatingWidgetViewModel.kt:35-37 | each element's initial value is the empty value of that element, the last element with an id winning |
| FloatingWidgetState.SelectionRecordsAndNavigates | app-android/app/src/main/java/de/mimuc/senseeverything/service/floatingWidget/FloatingWidgetViewModel.kt:43-60 | a selection records a button value under the button's id and leaves other answers alone; it moves to the option's next step when there is one and completes the questionnaire otherwise |
| FloatingWidgetState.UpdateChangesOnlyItsKey | app-android/app/src/main/java/de/mimuc/senseeverything/service/floatingWidget/FloatingWidgetViewModel.kt:62-66 | updating an answer stores it under its id, leaves the other answers, the step and completion alone |
| FloatingWidgetState.CompletionIsFinal | app-android/app/src/main/java/de/mimuc/senseeverything/service/floatingWidget/FloatingWidgetViewModel.kt:68-76 | once completed, no operation of the view model makes the questionnaire incomplete again |
| FloatingWidgetState.FloatingWidgetViewModel.constructor | app-android/app/src/main/java/de/mimuc/senseeverything/service/floatingWidget/FloatingWidgetViewModel.kt:15-27 | a new view model is at step 1, with no answers, not completed and no questionnaire |
| FloatingWidgetState.FloatingWidgetViewModel.Initialize | app-android/app/src/main/java/de/mimuc/senseeverything/service/floatingWidget/FloatingWidgetViewModel.kt:29-41 | initialising sets the questionnaire and the pending id and replaces the answers by the elements' empty values |
| FloatingWidgetState.FloatingWidgetViewModel.HandleButtonSelection | app-android/app/src/main/java/de/mimuc/senseeverything/service/floatingWidget/FloatingWidgetViewModel.kt:43-60 | the new state is the selection's: the button's value stored, then the next step or completion |
| FloatingWidgetState.FloatingWidgetViewModel.UpdateElementValue | app-android/app/src/main/java/de/mimuc/senseeverything/service/floatingWidget/FloatingWidgetViewModel.kt:62-66 | the new state has the value stored under the element id and nothing else changed |
| QuestionnaireRuleEvaluator.ElementValueAsString | app-android/app/src/main/java/de/mimuc/senseeverything/helpers/QuestionnaireRuleEvaluator.kt:53-72 | an answer reads as no text exactly when it is missing or of a kind that holds no answer |
| QuestionnaireRuleEvaluator.TrimStartQuotes | app-android/app/src/main/java/de/mimuc/senseeverything/helpers/QuestionnaireRuleEvaluator.kt:33 | trimming the leading quotes drops only quote characters from the front and leaves text that does not start with one |
| QuestionnaireRuleEvaluator.TrimEndQuotes | app-android/app/src/main/java/de/mimuc/senseeverything/helpers/QuestionnaireRuleEvaluator.kt:33 | trimming the trailing quotes drops only quote characters from the back and leaves text that does not end with one |
| QuestionnaireRuleEvaluator.TrimQuotes | app-android/app/src/main/java/de/mimuc/senseeverything/helpers/QuestionnaireRuleEvaluator.kt:32-36 | the trimmed text neither starts nor ends with a quote |
| QuestionnaireRuleEvaluator.TrimQuotesStrips | app-android/app/src/main/java/de/mimuc/senseeverything/helpers/QuestionnaireRuleEvaluator.kt:32-36 | the trimmed text is a middle part of the text, with only quotes cut off on either side |
| QuestionnaireRuleEvaluator.RuleActionsContents | app-android/app/src/main/java/de/mimuc/senseeverything/helpers/QuestionnaireRuleEvaluator.kt:20-51 | a rule name is in the result exactly when some rule of that name fires, and it holds the actions of the last such rule |
| QuestionnaireRuleEvaluator.ConditionOnMissingAnswer | app-android/app/src/main/java/de/mimuc/senseeverything/helpers/QuestionnaireRuleEvaluator.kt:25-29 | a condition on a field that no answer has is false, whatever its comparator |
| QuestionnaireRuleEvaluator.NoAnswersNoActions | app-android/app/src/main/java/de/mimuc/senseeverything/helpers/QuestionnaireRuleEvaluator.kt:20-51 | with no answers, rules that have conditions give no actions |
| QuestionnaireRuleEvaluator.Evaluator.constructor | app-android/app/src/main/java/de/mimuc/senseeverything/helpers/QuestionnaireRuleEvaluator.kt:19 | the evaluator holds the given rules |
| QuestionnaireRuleEvaluator.Evaluator.Evaluate | app-android/app/src/main/java/de/mimuc/senseeverything/helpers/QuestionnaireRuleEvaluator.kt:20-51 | the loop over the rules gives RuleActions: the actions of every firing rule by name |
| QuestionnaireRuleEvaluator.SingleRule | app-android/app/src/main/java/de/mimuc/senseeverything/helpers/QuestionnaireRuleEvaluator.kt:20-51 | a single rule gives its actions under its name exactly when it fires, and nothing otherwise |
| QuestionnaireRuleEvaluator.SingleConditionOnEqualAnswer | app-android/app/src/main/java/de/mimuc/senseeverything/helpers/QuestionnaireRuleEvaluator.kt:31-37 | a one-condition AND rule whose field's answer equals the trimmed expected value fires for EQUALS and not for NOT_EQUALS |
| QuestionnaireRuleEvaluator.QuotedYes | app-android/app/src/main/java/de/mimuc/senseeverything/helpers/QuestionnaireRuleEvaluator.kt:32-33 | the JSON text "\"Yes\"" trims to Yes |
| QuestionnaireRuleEvaluator.ValueOfFirst | app-android/app/src/main/java/de/mimuc/senseeverything/helpers/QuestionnaireRuleEvaluator.kt:26 | the answer compared is the first entry whose element name is the field, at whatever position it stands |
| QuestionnaireRuleEvaluator.YesAnswerMatches | app-android/app/src/test/kotlin/de/mimuc/senseeverything/helpers/QuestionnaireRuleEvaluatorTest.kt:35-37 | the button answer Yes to answer1 reads as the trimmed expected value |
| QuestionnaireRuleEvaluator.EqualsExample | app-android/app/src/test/kotlin/de/mimuc/senseeverything/helpers/QuestionnaireRuleEvaluatorTest.kt:14-44 | an EQUALS rule on the given answer yields its one action under its name |
| QuestionnaireRuleEvaluator.NotEqualsExample | app-android/app/src/test/kotlin/de/mimuc/senseeverything/helpers/QuestionnaireRuleEvaluatorTest.kt:46-75 | the NOT_EQUALS rule on the same answer yields no action |
| InteractionWidget.LogMessagesDistinct | app-android/app/src/main/java/de/mimuc/senseeverything/service/InteractionFloatingWidgetService.kt:258-270 | each kind of interaction log has its own message |
| InteractionWidget.Log | app-android/app/src/main/java/de/mimuc/senseeverything/service/InteractionFloatingWidgetService.kt:283-297 | a log message is appended exactly when the log service is bound; nothing else of the widget changes |
| InteractionWidget.YesStartsInteraction | app-android/app/src/main/java/de/mimuc/senseeverything/service/InteractionFloatingWidgetService.kt:222-226 | Yes outside an interaction hides the widget, logs "start" and stores that the participant is in an interaction |
| InteractionWidget.YesTwiceConfirmsSame | app-android/app/src/main/java/de/mimuc/senseeverything/service/InteractionFloatingWidgetService.kt:212-227 | in an interaction a first Yes asks whether it is the same one, keeping the widget and logging nothing; a second Yes logs "confirmSameInteraction", hides the widget and clears the question |
| InteractionWidget.NoInInteraction | app-android/app/src/main/java/de/mimuc/senseeverything/service/InteractionFloatingWidgetService.kt:230-248 | No in an interaction hides the widget and stores that it is over; after the same-interaction question it logs "confirmAnotherInteraction" without broadcasting, otherwise it logs "end" and broadcasts interactionEnd |
| InteractionWidget.AnswersKeepConsistent | app-android/app/src/main/java/de/mimuc/senseeverything/service/InteractionFloatingWidgetService.kt:209-248 | the same-interaction question is only pending while the stored flag is set, and both answers keep it so; Yes sets the flag, No clears it and the question |
| InteractionWidget.AnswersLogOnce | app-android/app/src/main/java/de/mimuc/senseeverything/service/InteractionFloatingWidgetService.kt:209-248 | each answer logs at most one message; Yes never broadcasts, and No broadcasts exactly when it ends an interaction |
| InteractionWidget.RecordBuckets | app-android/app/src/main/java/de/mimuc/senseeverything/service/InteractionFloatingWidgetService.kt:124-125 | recording the shown buckets changes only them and the update time |
| InteractionWidget.BucketRecordKeepsPhase | app-android/app/src/main/java/de/mimuc/senseeverything/service/InteractionFloatingWidgetService.kt:124-125 | recording a bucket leaves the current study phase unchanged at every time |
| InteractionWidget.BucketedShowRecordsBucket | app-android/app/src/main/java/de/mimuc/senseeverything/service/InteractionFloatingWidgetService.kt:116-133 | with the bucketed strategy outside an interaction, the widget shows exactly when the current bucket is not recorded and the dice says so; showing records the bucket, and otherwise the settings are untouched |
| InteractionWidget.CreateRendersAtMostOnce | app-android/app/src/main/java/de/mimuc/senseeverything/service/InteractionFloatingWidgetService.kt:77-137 | a start of the service shows the widget at most once |
| InteractionWidget.ShownBucketRecorded | app-android/app/src/main/java/de/mimuc/senseeverything/service/InteractionFloatingWidgetService.kt:121-126 | after a bucketed start that showed the widget, its bucket is recorded and no interaction or phase has changed |
| InteractionWidget.RecordedBucketSilent | app-android/app/src/main/java/de/mimuc/senseeverything/service/InteractionFloatingWidgetService.kt:130-132 | a bucketed start in a recorded bucket does not show the widget |
| InteractionWidget.BucketedShowsOncePerBucket | app-android/app/src/main/java/de/mimuc/senseeverything/service/InteractionFloatingWidgetService.kt:116-133 | two starts in the same bucket of the same bucketed phase show the widget at most once between them |
| InteractionWidget.StrategyDecidesOutsideInteraction | app-android/app/src/main/java/de/mimuc/senseeverything/service/InteractionFloatingWidgetService.kt:104-114 | outside an interaction the default strategy always shows the widget asking whether the participant is interacting, and the hidden one never shows it; neither changes the settings |
| InteractionWidget.InInteractionAlwaysAsks | app-android/app/src/main/java/de/mimuc/senseeverything/service/InteractionFloatingWidgetService.kt:88-103 | without a current phase a start does nothing; in an interaction it always shows the widget asking whether it goes on |
| InteractionWidget.InteractionFloatingWidgetService.constructor | app-android/app/src/main/java/de/mimuc/senseeverything/service/InteractionFloatingWidgetService.kt:56-71 | a new service holds the given store and handler, with no widget, no pending question and no log connection |
| InteractionWidget.InteractionFloatingWidgetService.LogInteractionMessage | app-android/app/src/main/java/de/mimuc/senseeverything/service/InteractionFloatingWidgetService.kt:258-297 | the widget state becomes Log of the message |
| InteractionWidget.InteractionFloatingWidgetService.RenderWidget | app-android/app/src/main/java/de/mimuc/senseeverything/service/InteractionFloatingWidgetService.kt:139-207 | the widget state becomes Render: shown once more, with the current question |
| InteractionWidget.InteractionFloatingWidgetService.OnServiceConnected | app-android/app/src/main/java/de/mimuc/senseeverything/service/InteractionFloatingWidgetService.kt:273-276 | binding connects the log and logs "asked" |
| InteractionWidget.InteractionFloatingWidgetService.OnServiceDisconnected | app-android/app/src/main/java/de/mimuc/senseeverything/service/InteractionFloatingWidgetService.kt:278-280 | unbinding disconnects the log and changes nothing else |
| InteractionWidget.InteractionFloatingWidgetService.OnCreate | app-android/app/src/main/java/de/mimuc/senseeverything/service/InteractionFloatingWidgetService.kt:77-137 | the new state of service and settings is Create |
| InteractionWidget.InteractionFloatingWidgetService.AnswerYes | app-android/app/src/main/java/de/mimuc/senseeverything/service/InteractionFloatingWidgetService.kt:209-228 | the new state of service and settings is Yes |
| InteractionWidget.InteractionFloatingWidgetService.AnswerNo | app-android/app/src/main/java/de/mimuc/senseeverything/service/InteractionFloatingWidgetService.kt:230-249 | the new state is No, and the handler's triggers are re-initialised exactly when an interaction ends |
| InteractionWidget.InteractionFloatingWidgetService.OnDestroy | app-android/app/src/main/java/de/mimuc/senseeverything/service/InteractionFloatingWidgetService.kt:251-256 | destroying the service removes the widget from the screen |
| LogStore.Limit | app-android/app/src/main/java/de/mimuc/senseeverything/db/models/LogDataDao.kt:18 | LIMIT n keeps the first n rows, or all of them when there are fewer; a negative limit keeps all |
| LogStore.OldestSpec | app-android/app/src/main/java/de/mimuc/senseeverything/db/models/LogDataDao.kt:18-19 | the query's rows are rows of the table that satisfy the filter, sorted by timestamp, as many as the limit allows of those that satisfy it, each at most as often as in the table |
| LogStore.OldestAreEarliest | app-android/app/src/main/java/de/mimuc/senseeverything/db/models/LogDataDao.kt:18-19 | every row the query leaves out is no earlier than every row it returns |
| LogStore.LastItem | app-android/app/src/main/java/de/mimuc/senseeverything/db/models/LogDataDao.kt:30-31 | the last item is missing exactly when the table is empty, and otherwise is a row no earlier than any other |
| LogStore.DeleteShrinks | app-android/app/src/main/java/de/mimuc/senseeverything/db/models/LogDataDao.kt:36-37 | deleting a batch whose first row is in the table removes at least one row |
| LogStore.DeleteLowersUnsyncedCount | app-android/app/src/main/java/de/mimuc/senseeverything/db/models/LogDataDao.kt:21-22 | deleting a batch of the table's unsynced rows lowers the unsynced count by at least the batch's size |
| LogStore.Numbered | app-android/app/src/main/java/de/mimuc/senseeverything/db/models/LogDataDao.kt:15-16 | inserted rows get consecutive generated keys from the given one, in order, and are otherwise as given |
| LogStore.UpdateOne | app-android/app/src/main/java/de/mimuc/senseeverything/db/models/LogDataDao.kt:33-34 | updating a row replaces every row with its key by it and leaves the others |
| LogStore.UpdateKeepsKeys | app-android/app/src/main/java/de/mimuc/senseeverything/db/models/LogDataDao.kt:33-34 | updating keeps the number of rows and their keys, and rows whose key is not updated are unchanged |
| LogStore.LogDataDao.constructor | app-android/app/src/main/java/de/mimuc/senseeverything/db/models/LogDataDao.kt:10-11 | a new table is empty and no key has been generated |
| LogStore.LogDataDao.InsertAll | app-android/app/src/main/java/de/mimuc/senseeverything/db/models/LogDataDao.kt:15-16 | inserting appends the items with the next generated keys and keeps every key generated and distinct |
| LogStore.LogDataDao.UpdateLogData | app-android/app/src/main/java/de/mimuc/senseeverything/db/models/LogDataDao.kt:33-34 | updating leaves the table as UpdateAll says and keeps the keys generated |
| LogStore.LogDataDao.DeleteLogData | app-android/app/src/main/java/de/mimuc/senseeverything/db/models/LogDataDao.kt:36-37 | deleting removes exactly the rows whose key is in the batch and keeps every key generated and distinct |
| LogStore.LogDataDao.DeleteAll | app-android/app/src/main/java/de/mimuc/senseeverything/db/models/LogDataDao.kt:39-40 | deleting all empties the table, so there is no last item and nothing unsynced |
| LogService.Cancel | app-android/app/src/main/java/de/mimuc/senseeverything/service/LogService.kt:79-81 | removeCallbacks leaves exactly the posted runnables of other tasks |
| LogService.CancelOther | app-android/app/src/main/java/de/mimuc/senseeverything/service/LogService.kt:220 | cancelling one task's callbacks does not change whether another task has callbacks |
| LogService.WithoutOther | app-android/app/src/main/java/de/mimuc/senseeverything/service/LogService.kt:169-181 | running a posted runnable of one task does not change whether another task has callbacks |
| LogService.WithoutSubset | app-android/app/src/main/java/de/mimuc/senseeverything/service/LogService.kt:169-181 | after a runnable runs, a task has callbacks only if it had them before |
| LogService.PostHas | app-android/app/src/main/java/de/mimuc/senseeverything/service/LogService.kt:225-228 | after postDelayed a task has callbacks exactly when it had them before or is the posted one |
| LogService.TransitionKeepsInv | app-android/app/src/main/java/de/mimuc/senseeverything/service/LogService.kt:210-310 | every state change keeps the invariant, and so does a change to idle from a state where only the guard is missing |
| LogService.RunPendingKeepsInv | app-android/app/src/main/java/de/mimuc/senseeverything/service/LogService.kt:169-182 | running any posted runnable keeps the invariant |
| LogService.SetupPeriodicKeepsInv | app-android/app/src/main/java/de/mimuc/senseeverything/service/LogService.kt:184-187 | setting up periodic sampling keeps the invariant |
| LogService.StopPeriodicKeepsInv | app-android/app/src/main/java/de/mimuc/senseeverything/service/LogService.kt:189-193 | stopping periodic sampling keeps the invariant |
| LogService.HandleMessageKeepsInv | app-android/app/src/main/java/de/mimuc/senseeverything/service/LogService.kt:103-131 | handling any message keeps the invariant |
| LogService.OnReceiveKeepsInv | app-android/app/src/main/java/de/mimuc/senseeverything/service/LogService.kt:146-162 | a lock or unlock broadcast keeps the invariant |
| LogService.OnStartCommandKeepsInv | app-android/app/src/main/java/de/mimuc/senseeverything/service/LogService.kt:60-75 | a start command keeps the invariant |
| LogService.UnlockWhileIdle | app-android/app/src/main/java/de/mimuc/senseeverything/service/LogService.kt:215-229 | an unlock while idle cancels the pending periodic start, starts the sensors chosen for unlock sampling, arms the stop runnable for one minute and leaves the periodic stop alone |
| LogService.PeriodicTickWhileIdle | app-android/app/src/main/java/de/mimuc/senseeverything/service/LogService.kt:230-241 | a periodic tick while idle starts the periodic sensors and arms the periodic stop for one minute, leaving the other callbacks alone |
| LogService.StopWhilePeriodic | app-android/app/src/main/java/de/mimuc/senseeverything/service/LogService.kt:243-259 | the end of a periodic window stops the non-continuous sensors, cancels the periodic stop and arms the next periodic start five minutes later exactly when periodic sampling is enabled |
| LogService.UnlockWhilePeriodic | app-android/app/src/main/java/de/mimuc/senseeverything/service/LogService.kt:260-277 | an unlock during periodic sampling switches to the unlock sensors and arms the unlock stop for one minute, keeping the periodic callbacks |
| LogService.PeriodicTickWhileUnlocked | app-android/app/src/main/java/de/mimuc/senseeverything/service/LogService.kt:301-304 | a periodic tick during unlock sampling changes nothing |
| LogService.GuardExpiryWhileUnlocked | app-android/app/src/main/java/de/mimuc/senseeverything/service/LogService.kt:280-300 | the end of unlock sampling stops the non-continuous sensors and goes idle; a periodic start is pending afterwards exactly when one was, or periodic sampling is enabled and no periodic callback is pending |
| LogService.SameStateIsNoOp | app-android/app/src/main/java/de/mimuc/senseeverything/service/LogService.kt:210-310 | asking for the current state changes nothing |
| LogService.StartSensorsSelects | app-android/app/src/main/java/de/mimuc/senseeverything/service/LogService.kt:351-367 | startSensors starts exactly the enabled, available sensors meeting the periodic or continuous condition, and changes nothing else |
| LogService.StopSensorsSelects | app-android/app/src/main/java/de/mimuc/senseeverything/service/LogService.kt:369-379 | stopSensors stops exactly the running sensors that are not continuous, or all of them when continuous ones are included, and does nothing while the list is not loaded |
| LogService.StopSamplingEffect | app-android/app/src/main/java/de/mimuc/senseeverything/service/LogService.kt:199-204 | stopping the sampling stops every sensor, disables periodic sampling, cancels both periodic callbacks and unregisters the receiver; it fails when the receiver was not registered |
| LogService.StopThenSetupStallsPeriodicCycle | app-android/app/src/main/java/de/mimuc/senseeverything/service/LogService.kt:184-204 | stopping the sampling during a periodic window and setting it up again leaves periodic sampling enabled with no periodic callback pending |
| LogService.UnlockRestartsStalledCycle | app-android/app/src/main/java/de/mimuc/senseeverything/service/LogService.kt:260-300 | a stalled periodic cycle resumes when an unlock window ends: a periodic start is armed five minutes later |
| LogService.StartCommandWithoutPermissions | app-android/app/src/main/java/de/mimuc/senseeverything/service/LogService.kt:64-72 | without the critical permissions a start command only runs the healthcheck and stops the service |
| LogService.ReceiverLockAction | app-android/app/src/main/java/de/mimuc/senseeverything/service/LogService.kt:148-150 | a screen-off broadcast only hides the interaction widget |
| LogService.ReceiverUnlockAction | app-android/app/src/main/java/de/mimuc/senseeverything/service/LogService.kt:151-160 | an unlock broadcast shows the widget, moves to unlock sampling and runs the healthcheck |
| LogService.LogService.constructor | app-android/app/src/main/java/de/mimuc/senseeverything/service/LogService.kt:40-53 | a new service is idle, with nothing pending, no receiver and periodic sampling disabled; it satisfies the invariant |
| LogService.LogService.StartSensors | app-android/app/src/main/java/de/mimuc/senseeverything/service/LogService.kt:351-367 | the loop over the sensor list gives StartSensorsSpec |
| LogService.LogService.StopSensors | app-android/app/src/main/java/de/mimuc/senseeverything/service/LogService.kt:369-379 | the loop over the sensor list gives StopSensorsSpec |
| LogService.LogService.ProcessNewState | app-android/app/src/main/java/de/mimuc/senseeverything/service/LogService.kt:210-310 | the new state is the transition table's entry for the two states |
| LogService.LogService.SetState | app-android/app/src/main/java/de/mimuc/senseeverything/service/LogService.kt:206-208 | setting a state is the transition from the current one |
| LogService.LogService.SetupPeriodicSampling | app-android/app/src/main/java/de/mimuc/senseeverything/service/LogService.kt:184-187 | periodic sampling is enabled and the periodic start runs at once; the invariant is kept |
| LogService.LogService.StopPeriodicSampling | app-android/app/src/main/java/de/mimuc/senseeverything/service/LogService.kt:189-193 | periodic sampling is disabled and both periodic callbacks are cancelled |
| LogService.LogService.SetupContinuousSampling | app-android/app/src/main/java/de/mimuc/senseeverything/service/LogService.kt:195-197 | continuous sampling starts the sensors with continuous ones included |
| LogService.LogService.ListenForLockUnlock | app-android/app/src/main/java/de/mimuc/senseeverything/service/LogService.kt:141-166 | the sensor list is loaded and the receiver registered |
| LogService.LogService.StopListeningForLockUnlock | app-android/app/src/main/java/de/mimuc/senseeverything/service/LogService.kt:168-171 | the receiver is unregistered, failing when it was not registered |
| LogService.LogService.StopSampling | app-android/app/src/main/java/de/mimuc/senseeverything/service/LogService.kt:199-204 | the new state is StopSamplingSpec |
| LogService.LogService.HandleMessage | app-android/app/src/main/java/de/mimuc/senseeverything/service/LogService.kt:103-131 | each message code runs its operations; an unknown code changes nothing; the service keeps its invariant: a periodic start is pending only while periodic sampling is enabled, and unlock sampling has its stop runnable pending |
| LogService.LogService.OnReceive | app-android/app/src/main/java/de/mimuc/senseeverything/service/LogService.kt:146-162 | the broadcast's effect is OnReceiveSpec; the service keeps its invariant: a periodic start is pending only while periodic sampling is enabled, and unlock sampling has its stop runnable pending |
| LogService.LogService.RunPending | app-android/app/src/main/java/de/mimuc/senseeverything/service/LogService.kt:169-182 | running a due runnable removes it and runs its state change; the service keeps its invariant: a periodic start is pending only while periodic sampling is enabled, and unlock sampling has its stop runnable pending |
| LogService.LogService.OnStartCommand | app-android/app/src/main/java/de/mimuc/senseeverything/service/LogService.kt:60-75 | with the permissions the service listens for unlocks and sets up periodic and continuous sampling, and otherwise stops itself; the service keeps its invariant: a periodic start is pending only while periodic sampling is enabled, and unlock sampling has its stop runnable pending |
| LogService.LogService.OnDestroy | app-android/app/src/main/java/de/mimuc/senseeverything/service/LogService.kt:77-94 | destroying cancels all callbacks, stops every sensor and unregisters the receiver when there is one; the service keeps its invariant: a periodic start is pending only while periodic sampling is enabled, and unlock sampling has its stop runnable pending |
| LogServiceJava.ToKotlin | app-android/app/src/main/java/de/mimuc/senseeverything/service/LogService.java:29-34 | every state of the Java enum but SLEEP is a state of the Kotlin one, and maps back to itself |
| LogServiceJava.TransitionAgrees | app-android/app/src/main/java/de/mimuc/senseeverything/service/LogService.java:219-280 | on the states both versions have, the Java transition table is the Kotlin one |
| LogServiceJava.TransitionFromIdleAgrees | app-android/app/src/main/java/de/mimuc/senseeverything/service/LogService.java:221-237 | the transitions out of IDLE agree with the Kotlin version |
| LogServiceJava.TransitionFromPeriodicAgrees | app-android/app/src/main/java/de/mimuc/senseeverything/service/LogService.java:238-257 | the transitions out of SAMPLING_PERIODIC agree with the Kotlin version |
| LogServiceJava.PeriodicToIdleAgrees | app-android/app/src/main/java/de/mimuc/senseeverything/service/LogService.java:239-245 | the end of a periodic window agrees with the Kotlin version |
| LogServiceJava.TransitionFromUnlockAgrees | app-android/app/src/main/java/de/mimuc/senseeverything/service/LogService.java:258-278 | the transitions out of SAMPLING_AFTER_UNLOCK agree with the Kotlin version |
| LogServiceJava.SleepTransitionsAreNoOps | app-android/app/src/main/java/de/mimuc/senseeverything/service/LogService.java:219-280 | no branch handles SLEEP: a transition from or to it changes nothing |
| LogServiceJava.SleepIsNeverAssigned | app-android/app/src/main/java/de/mimuc/senseeverything/service/LogService.java:219-280 | no transition puts the service into SLEEP |
| LogServiceJava.SetStateAgrees | app-android/app/src/main/java/de/mimuc/senseeverything/service/LogService.java:215-217 | setState agrees with the Kotlin version on the shared states |
| LogServiceJava.LiftCommutes | app-android/app/src/main/java/de/mimuc/senseeverything/service/LogService.java:151-213 | listening for unlocks, stopping the sampling and starting continuous sampling do what the Kotlin version does |
| LogServiceJava.HandleMessageAgrees | app-android/app/src/main/java/de/mimuc/senseeverything/service/LogService.java:111-141 | every message code is handled as in the Kotlin version |
| LogServiceJava.PeriodicMessageAgrees | app-android/app/src/main/java/de/mimuc/senseeverything/service/LogService.java:128-133 | the listen-and-periodic message agrees with the Kotlin version |
| LogServiceJava.OnReceiveAgrees | app-android/app/src/main/java/de/mimuc/senseeverything/service/LogService.java:158-172 | the lock and unlock broadcasts agree with the Kotlin version |
| LogServiceJava.RunPendingAgrees | app-android/app/src/main/java/de/mimuc/senseeverything/service/LogService.java:146-191 | the posted runnables do what they do in the Kotlin version |
| LogServiceJava.LowerLift | app-android/app/src/main/java/de/mimuc/senseeverything/service/LogService.java:29-34 | a service not in SLEEP is the Java view of a Kotlin service |
| LogServiceJava.HandleMessageKeepsInv | app-android/app/src/main/java/de/mimuc/senseeverything/service/LogService.java:111-141 | handling any message keeps the Kotlin version's invariant |
| LogServiceJava.OnReceiveKeepsInv | app-android/app/src/main/java/de/mimuc/senseeverything/service/LogService.java:158-172 | a lock or unlock broadcast keeps the invariant |
| LogServiceJava.RunPendingKeepsInv | app-android/app/src/main/java/de/mimuc/senseeverything/service/LogService.java:146-191 | running a posted runnable keeps the invariant |
| LogServiceJava.SetupPeriodicKeepsInv | app-android/app/src/main/java/de/mimuc/senseeverything/service/LogService.java:193-196 | setting up periodic sampling keeps the invariant |
| LogServiceJava.LogService.constructor | app-android/app/src/main/java/de/mimuc/senseeverything/service/LogService.java:44-64 | a new service is idle with nothing pending, and satisfies the invariant |
| LogServiceJava.LogService.OnStartCommand | app-android/app/src/main/java/de/mimuc/senseeverything/service/LogService.java:72-77 | a start command changes nothing: sampling waits for a message |
| LogServiceJava.LogService.StartSensors | app-android/app/src/main/java/de/mimuc/senseeverything/service/LogService.java:311-328 | the loop over the sensor list gives the Kotlin StartSensorsSpec |
| LogServiceJava.LogService.StopSensors | app-android/app/src/main/java/de/mimuc/senseeverything/service/LogService.java:330-340 | the loop over the sensor list gives the Kotlin StopSensorsSpec |
| LogServiceJava.LogService.ProcessNewState | app-android/app/src/main/java/de/mimuc/senseeverything/service/LogService.java:219-280 | the new state is the Java transition table's entry |
| LogServiceJava.LogService.SetState | app-android/app/src/main/java/de/mimuc/senseeverything/service/LogService.java:215-217 | setting a state is the transition from the current one |
| LogServiceJava.LogService.SetupPeriodicSampling | app-android/app/src/main/java/de/mimuc/senseeverything/service/LogService.java:193-196 | periodic sampling is enabled and the periodic start runs at once, keeping the invariant |
| LogServiceJava.LogService.StopPeriodicSampling | app-android/app/src/main/java/de/mimuc/senseeverything/service/LogService.java:198-202 | periodic sampling is disabled and both periodic callbacks cancelled |
| LogServiceJava.LogService.ListenForLockUnlock | app-android/app/src/main/java/de/mimuc/senseeverything/service/LogService.java:151-175 | the sensor list is loaded and the receiver registered |
| LogServiceJava.LogService.StopSampling | app-android/app/src/main/java/de/mimuc/senseeverything/service/LogService.java:208-213 | the new state is the Kotlin StopSamplingSpec |
| LogServiceJava.LogService.HandleMessage | app-android/app/src/main/java/de/mimuc/senseeverything/service/LogService.java:111-141 | each message code runs its operations; SLEEP_MODE and unknown codes change nothing; the invariant is kept |
| LogServiceJava.LogService.OnReceive | app-android/app/src/main/java/de/mimuc/senseeverything/service/LogService.java:158-172 | the broadcast's effect is OnReceiveSpec and the invariant is kept |
| LogServiceJava.LogService.RunPending | app-android/app/src/main/java/de/mimuc/senseeverything/service/LogService.java:146-191 | a due runnable runs its state change and the invariant is kept |
| LogServiceJava.LogService.OnDestroy | app-android/app/src/main/java/de/mimuc/senseeverything/service/LogService.java:79-100 | destroying cancels all callbacks, stops every sensor and unregisters the receiver |
| NotificationListener.FindChannel | app-android/app/src/main/java/de/mimuc/senseeverything/service/MyNotificationListenerService.kt:81-84 | the channel found is one of the channels with the id, and none is found exactly when no channel has it |
| NotificationListener.RecordFields | app-android/app/src/main/java/de/mimuc/senseeverything/service/MyNotificationListenerService.kt:65 | when key, package and category hold no comma, the record splits on commas into when, key, package, vibrate, importance and category, in that order |
| NotificationListener.NumberHasNoComma | app-android/app/src/main/java/de/mimuc/senseeverything/service/MyNotificationListenerService.kt:65 | a number's text holds no comma |
| NotificationListener.PostedAddsItsRecord | app-android/app/src/main/java/de/mimuc/senseeverything/service/MyNotificationListenerService.kt:29-67 | a posted notification adds exactly its record to the records handed on or waiting, and only when it passes every filter; group summaries, bubbles and stale repeats change nothing, any other notification becomes the last seen under its key |
| NotificationListener.RepostIsIgnored | app-android/app/src/main/java/de/mimuc/senseeverything/service/MyNotificationListenerService.kt:44-49 | the same notification posted again with a non-zero when changes nothing |
| NotificationListener.ConnectedDeliversQueue | app-android/app/src/main/java/de/mimuc/senseeverything/service/MyNotificationListenerService.kt:106-112 | connecting hands on the waiting records in order and empties the queue, losing none |
| NotificationListener.EventsKeepValid | app-android/app/src/main/java/de/mimuc/senseeverything/service/MyNotificationListenerService.kt:29-157 | every event keeps the queue empty while the listener is bound |
| NotificationListener.BindingFlagIsNeverCleared | app-android/app/src/main/java/de/mimuc/senseeverything/service/MyNotificationListenerService.kt:114-135 | after a successful bind and a disconnect the binding flag stays set, so later records are queued without a new bind request |
| NotificationListener.NotificationListenerService.constructor | app-android/app/src/main/java/de/mimuc/senseeverything/service/MyNotificationListenerService.kt:20-27 | a new listener has seen nothing, is unbound, not binding and has an empty queue |
| NotificationListener.NotificationListenerService.OnNotificationPosted | app-android/app/src/main/java/de/mimuc/senseeverything/service/MyNotificationListenerService.kt:29-67 | the new state is Posted |
| NotificationListener.NotificationListenerService.SendToSensor | app-android/app/src/main/java/de/mimuc/senseeverything/service/MyNotificationListenerService.kt:86-104 | when bound the record is handed on, otherwise it is queued with a bind request |
| NotificationListener.NotificationListenerService.QueueAndBind | app-android/app/src/main/java/de/mimuc/senseeverything/service/MyNotificationListenerService.kt:120-135 | the record is queued and a bind is requested only when unbound, not binding and the log service runs; the binding flag takes bindService's answer |
| NotificationListener.NotificationListenerService.OnServiceConnected | app-android/app/src/main/java/de/mimuc/senseeverything/service/MyNotificationListenerService.kt:107-112 | the listener is bound and the queue is delivered |
| NotificationListener.NotificationListenerService.ConsumeQueue | app-android/app/src/main/java/de/mimuc/senseeverything/service/MyNotificationListenerService.kt:137-140 | while bound, the queued records are handed on in order and the queue is emptied |
| NotificationListener.NotificationListenerService.OnServiceDisconnected | app-android/app/src/main/java/de/mimuc/senseeverything/service/MyNotificationListenerService.kt:114-117 | the listener is no longer bound; nothing else changes |
| NotificationListener.NotificationListenerService.OnCreate | app-android/app/src/main/java/de/mimuc/senseeverything/service/MyNotificationListenerService.kt:142-150 | a bind is requested exactly when the log service runs |
| NotificationListener.NotificationListenerService.OnDestroy | app-android/app/src/main/java/de/mimuc/senseeverything/service/MyNotificationListenerService.kt:152-157 | a bound listener unbinds |
| NotificationTriggerReceiving.SetPushed | app-android/app/src/main/java/de/mimuc/senseeverything/service/esm/NotificationTriggerReceiver.kt:75-79 | the trigger becomes Pushed, pushed and updated now, with every other field unchanged |
| NotificationTriggerReceiving.PushedOnlyOnce | app-android/app/src/main/java/de/mimuc/senseeverything/service/esm/NotificationTriggerReceiver.kt:82-84 | a trigger that was set pushed is no longer to be pushed |
| NotificationTriggerReceiving.FindTrigger | app-android/app/src/main/java/de/mimuc/senseeverything/service/esm/NotificationTriggerReceiver.kt:63-64 | the trigger found is the first with the id, and none is found exactly when no trigger has it |
| NotificationTriggerReceiving.GetTimeout | app-android/app/src/main/java/de/mimuc/senseeverything/service/esm/NotificationTriggerReceiver.kt:57-73 | there is a timeout exactly when the trigger is a floating-widget trigger linking to a timeout trigger that exists and is a floating-widget trigger; it is that trigger's delay |
| NotificationTriggerReceiving.UpdateRow | app-android/app/src/main/java/de/mimuc/senseeverything/service/esm/NotificationTriggerReceiver.kt:79 | the update replaces the rows with the trigger's uid and leaves the others |
| NotificationTriggerReceiving.PushExactlyWhenPlanned | app-android/app/src/main/java/de/mimuc/senseeverything/service/esm/NotificationTriggerReceiver.kt:32-51 | a notification is shown exactly when there is an intent, a context and a current trigger that is a planned push; such a trigger is stored as pushed at that time, other rows stay, and in every other case nothing changes |
| NotificationTriggerReceiving.SecondReceiveDoesNotPushAgain | app-android/app/src/main/java/de/mimuc/senseeverything/service/esm/NotificationTriggerReceiver.kt:41-50 | a second alarm that finds the trigger already pushed changes nothing |
| NotificationTriggerReceiving.NotificationTriggerTable.constructor | app-android/app/src/main/java/de/mimuc/senseeverything/service/esm/NotificationTriggerReceiver.kt:29-30 | the table holds the given rows |
| NotificationTriggerReceiving.NotificationTriggerTable.Update | app-android/app/src/main/java/de/mimuc/senseeverything/service/esm/NotificationTriggerReceiver.kt:79 | the table becomes UpdateRow of its rows |
| NotificationTriggerReceiving.NotificationTriggerReceiver.constructor | app-android/app/src/main/java/de/mimuc/senseeverything/service/esm/NotificationTriggerReceiver.kt:24-30 | the receiver uses the given table and has shown nothing |
| NotificationTriggerReceiving.NotificationTriggerReceiver.SetPushedAndStore | app-android/app/src/main/java/de/mimuc/senseeverything/service/esm/NotificationTriggerReceiver.kt:75-80 | the stored row of the trigger becomes the pushed trigger |
| NotificationTriggerReceiving.NotificationTriggerReceiver.OnReceive | app-android/app/src/main/java/de/mimuc/senseeverything/service/esm/NotificationTriggerReceiver.kt:32-51 | the new state is Receive's; where the trigger's JSON cannot be read nothing changes |
| BootReceiver.BootDecision | app-android/app/src/main/java/de/mimuc/senseeverything/service/sampling/OnBootReceiver.kt:44-55 | sampling starts exactly when the study runs and is not paused, its pause is over or has no end; a running paused study schedules the resume at the pause's end; any other state does nothing |
| BootReceiver.StartSamplingEffect | app-android/app/src/main/java/de/mimuc/senseeverything/service/sampling/OnBootReceiver.kt:63-68 | `startSampling` starts the sampler exactly when `isRunning` answers false, and otherwise finds it running |
| BootReceiver.Collect | app-android/app/src/main/java/de/mimuc/senseeverything/service/sampling/OnBootReceiver.kt:40-56 | each emission of the settings gives one effect, handled on that emission's own `isRunning` reading |
| BootReceiver.OnlyBootCompletedIsHandled | app-android/app/src/main/java/de/mimuc/senseeverything/service/sampling/OnBootReceiver.kt:24-60 | only a boot-completed intent with a context is handled |
| BootReceiver.StartsExactlyWhenStopped | app-android/app/src/main/java/de/mimuc/senseeverything/service/sampling/OnBootReceiver.kt:40-68 | sampling is started on exactly the emissions whose decision is to start and whose `isRunning` reading is false, once per such emission |
| BootReceiver.NoStartWhileRunning | app-android/app/src/main/java/de/mimuc/senseeverything/service/sampling/OnBootReceiver.kt:63-68 | while every emission finds the sampler running, the receiver never starts it |
| BootReceiver.EffectsFollowDecision | app-android/app/src/main/java/de/mimuc/senseeverything/service/sampling/OnBootReceiver.kt:40-56 | each emission's effect follows the decision rule |
| OnboardingSteps.Index | app-android/app/src/main/java/de/mimuc/senseeverything/activity/onboarding/Onboarding.kt:108-114 | the five onboarding steps in declaration order take the positions 0 to 4 |
| OnboardingSteps.NextAdvancesByOne | app-android/app/src/main/java/de/mimuc/senseeverything/activity/onboarding/Onboarding.kt:144-151 | `nextStep` moves every step one position forward and keeps COMPLETED; it yields COMPLETED exactly from START_STUDY or COMPLETED |
| OnboardingSteps.StartedButIncompleteIsMiddle | app-android/app/src/main/java/de/mimuc/senseeverything/activity/onboarding/Onboarding.kt:116-124 | `startedButIncomplete` holds exactly for the steps strictly between WELCOME and COMPLETED |
| OnboardingSteps.FourStepsComplete | app-android/app/src/main/java/de/mimuc/senseeverything/activity/onboarding/Onboarding.kt:144-151 | k calls of `nextStep` reach COMPLETED exactly when k is at least the number of steps still ahead (four from WELCOME) |
| Onboarding.OnboardingViewModel.constructor | app-android/app/src/main/java/de/mimuc/senseeverything/activity/onboarding/Onboarding.kt:127-141 | the view model starts at the step the settings store holds (`loadStep`) |
| Onboarding.OnboardingViewModel.NextStep | app-android/app/src/main/java/de/mimuc/senseeverything/activity/onboarding/Onboarding.kt:144-156 | the step becomes the next one and the settings store saves that step, nothing else besides the update time |
| Onboarding.OnboardingViewModel.FinishOnboarding | app-android/app/src/main/java/de/mimuc/senseeverything/activity/onboarding/Onboarding.kt:158-165 | the settings store saves COMPLETED as the onboarding step |
| PendingQuestionnaires.CreateEntry | app-android/app/src/main/java/de/mimuc/senseeverything/db/models/PendingQuestionnaire.kt:65-100 | no record exactly when no stored questionnaire has the trigger's questionnaire id; otherwise a NOTIFIED record added and updated now, with page -1, no values, valid for the trigger's minutes (or -1 for no expiry), shown as a notification trigger exactly when a notification trigger id is given |
| PendingQuestionnaires.NewEntryValidity | app-android/app/src/main/java/de/mimuc/senseeverything/db/models/PendingQuestionnaireDao.kt:14-15 | a new entry with a validity of d minutes is listed by `getAllNotExpired` exactly until d minutes after its creation, and its `distanceMillis` counts down from d minutes (PendingQuestionnaire.kt:76-77, 141-145) |
| PendingQuestionnaires.NewEntryWithoutExpiry | app-android/app/src/main/java/de/mimuc/senseeverything/db/models/PendingQuestionnaireDao.kt:14-15 | an entry whose trigger has no expiry (-1) is listed at every time |
| PendingQuestionnaires.Apply | app-android/app/src/main/java/de/mimuc/senseeverything/db/models/PendingQuestionnaire.kt:103-132 | `update` and `markCompleted` keep the identity, validity, display type, questionnaire and trigger; update sets PENDING, its time and the opened page and keeps the finish time, completion sets COMPLETED, its time and the finish time and keeps the page; the saved text becomes the serialised map exactly when the change carries a non-empty map |
| PendingQuestionnaires.SavedBy | app-android/app/src/main/java/de/mimuc/senseeverything/db/models/PendingQuestionnaire.kt:112-128 | a change saves its map exactly when the map is present and not empty |
| PendingQuestionnaires.SavedValuesNeverCleared | app-android/app/src/main/java/de/mimuc/senseeverything/db/models/PendingQuestionnaire.kt:112-114 | only a non-empty value map replaces the saved values, so once saved they stay present through any run of updates and completions |
| PendingQuestionnaires.LastChangeDecidesStatus | app-android/app/src/main/java/de/mimuc/senseeverything/db/models/PendingQuestionnaire.kt:108-130 | after a run of changes the status is that of the last one, and a final completion records its time as the finish time |
| PendingQuestionnaires.NoValuesKeepText | app-android/app/src/main/java/de/mimuc/senseeverything/db/models/PendingQuestionnaire.kt:112-128 | a run of changes none of which carries a non-empty map keeps the saved text |
| PendingQuestionnaires.LastValuesSaved | app-android/app/src/main/java/de/mimuc/senseeverything/db/models/PendingQuestionnaire.kt:112-128 | after any run of changes the saved text is the serialisation of the last non-empty map a change carried |
| PendingQuestionnaires.PendingTable.constructor | app-android/app/src/main/java/de/mimuc/senseeverything/db/models/PendingQuestionnaireDao.kt:12-28 | the table starts empty |
| PendingQuestionnaires.PendingTable.Insert | app-android/app/src/main/java/de/mimuc/senseeverything/db/models/PendingQuestionnaireDao.kt:20-21 | `insert` adds the record under its uid |
| PendingQuestionnaires.PendingTable.Update | app-android/app/src/main/java/de/mimuc/senseeverything/db/models/PendingQuestionnaireDao.kt:26-27 | `update` replaces the row with the record's uid, and changes nothing when there is none |
| PendingQuestionnaires.PendingTable.GetById | app-android/app/src/main/java/de/mimuc/senseeverything/db/models/PendingQuestionnaireDao.kt:17-18 | `getById` finds a record exactly when its uid is stored, and returns that row |
| PendingQuestionnaires.CreateAndStore | app-android/app/src/main/java/de/mimuc/senseeverything/db/models/PendingQuestionnaire.kt:65-100 | `createEntry` stores the new record under the fresh uid and returns the uid, or returns null and leaves the table unchanged when the questionnaire is unknown |
| PendingQuestionnaires.PendingQuestionnaire.constructor | app-android/app/src/main/java/de/mimuc/senseeverything/db/models/PendingQuestionnaire.kt:48-62 | the entity holds the given record's fields |
| PendingQuestionnaires.PendingQuestionnaire.Update | app-android/app/src/main/java/de/mimuc/senseeverything/db/models/PendingQuestionnaire.kt:103-117 | the entity becomes the record after an update and the table row is written back |
| PendingQuestionnaires.PendingQuestionnaire.MarkCompleted | app-android/app/src/main/java/de/mimuc/senseeverything/db/models/PendingQuestionnaire.kt:119-132 | the entity becomes the completed record and the table row is written back |
| PermissionNotifications.RevokedNames | app-android/app/src/main/java/de/mimuc/senseeverything/permissions/PermissionNotificationHelper.kt:34-42 | the names reported are exactly the permissions whose state is not granted |
| PermissionNotifications.RevokedIdempotent | app-android/app/src/main/java/de/mimuc/senseeverything/permissions/PermissionNotificationHelper.kt:34-42 | filtering the revoked permissions a second time changes nothing |
| PermissionNotifications.ShowPostsExactlyWhenDue | app-android/app/src/main/java/de/mimuc/senseeverything/permissions/PermissionNotificationHelper.kt:34-92 | a notification (id 1051, with the count of revoked permissions) is posted and the time and revoked set saved exactly when some permission is revoked, an hour has passed since the last one and the revoked set differs from the last; otherwise nothing changes |
| PermissionNotifications.AllGrantedPostsNothing | app-android/app/src/main/java/de/mimuc/senseeverything/permissions/PermissionNotificationHelper.kt:39-42 | with every permission granted nothing is posted or saved |
| PermissionNotifications.ThrottledWithinAnHour | app-android/app/src/main/java/de/mimuc/senseeverything/permissions/PermissionNotificationHelper.kt:76-82 | within an hour of the last notification nothing is posted or saved |
| PermissionNotifications.ShowKeepsSpacing | app-android/app/src/main/java/de/mimuc/senseeverything/permissions/PermissionNotificationHelper.kt:22-27 | one call keeps successive notifications at least an hour apart with the latest one's time stored |
| PermissionNotifications.ShowAllKeepsSpacing | app-android/app/src/main/java/de/mimuc/senseeverything/permissions/PermissionNotificationHelper.kt:22-27 | over any series of calls no two notifications are less than an hour apart |
| PermissionNotifications.SameRevokedSetNotifiesOnce | app-android/app/src/main/java/de/mimuc/senseeverything/permissions/PermissionNotificationHelper.kt:85-89 | two calls with the same revoked permissions post at most one notification |
| PermissionNotifications.PermissionNotificationHelper.constructor | app-android/app/src/main/java/de/mimuc/senseeverything/permissions/PermissionNotificationHelper.kt:18-27 | the helper starts from the stored last time and revoked set, with nothing posted |
| PermissionNotifications.PermissionNotificationHelper.ShouldShowNotification | app-android/app/src/main/java/de/mimuc/senseeverything/permissions/PermissionNotificationHelper.kt:68-92 | true exactly when an hour has passed since the last notification and the revoked set differs from the stored one |
| PermissionNotifications.PermissionNotificationHelper.ShowPermissionRevokedNotification | app-android/app/src/main/java/de/mimuc/senseeverything/permissions/PermissionNotificationHelper.kt:34-61 | the helper's state becomes that of `Show`: post and save exactly when due |
| QuestionnaireAnswers.EnumNamesRoundTrip | app-android/app/src/main/java/de/mimuc/senseeverything/api/model/ema/QuestionnaireAnswer.kt:79-84 | the `.name` texts of trigger status, priority, modality and source read back as the same values, so the uploaded names identify them |
| QuestionnaireAnswers.Serialize | app-android/app/src/main/java/de/mimuc/senseeverything/api/model/ema/QuestionnaireAnswer.kt:71-93 | the serialisable trigger carries every field of the stored trigger (enums by their names, which read back), the trigger id decoded from its JSON and the uid as text |
| QuestionnaireAnswers.MakeAnswerRequest | app-android/app/src/main/java/de/mimuc/senseeverything/api/model/ema/QuestionnaireAnswer.kt:64-105 | a request exists exactly when the answers parse as a JSON array and a given trigger's JSON decodes; it carries the pending questionnaire's uid, times, page (-1 when unset), status and the serialised trigger |
| QuestionnaireAnswers.FinishedTimestampMarksCompletion | app-android/app/src/main/java/de/mimuc/senseeverything/api/model/ema/QuestionnaireAnswer.kt:99 | for real (non-negative) finish times, a finished timestamp of -1 in the request means exactly that the questionnaire has not finished |
| QuestionnaireData.TriggerById | app-android/app/src/main/java/de/mimuc/senseeverything/data/QuestionnaireDataRepository.kt:65 | the trigger lookup finds a stored trigger with the uid, and finds none exactly when no stored trigger has it |
| QuestionnaireData.FoundIsFirstOnChain | app-android/app/src/main/java/de/mimuc/senseeverything/data/QuestionnaireDataRepository.kt:62-76 | a walk that ends stops at the first questionnaire along the chain of sources that names a trigger and returns that trigger as stored, or at the first without a trigger and without a stored source and returns nothing |
| QuestionnaireData.MoreFuelSameResult | app-android/app/src/main/java/de/mimuc/senseeverything/data/QuestionnaireDataRepository.kt:62-76 | once the walk ends, allowing it more steps does not change its result |
| QuestionnaireData.SelfSourceNeverEnds | app-android/app/src/main/java/de/mimuc/senseeverything/data/QuestionnaireDataRepository.kt:68-75 | a questionnaire without a trigger that is its own source makes the recursion go on for ever |
| QuestionnaireData.AcyclicChainEnds | app-android/app/src/main/java/de/mimuc/senseeverything/data/QuestionnaireDataRepository.kt:62-76 | when each source ranks strictly below the questionnaire it sourced, the walk ends within the questionnaire's rank |
| QuestionnaireData.FormatReadsBack | app-android/app/src/main/java/de/mimuc/senseeverything/data/QuestionnaireDataRepository.kt:102-108 | `formatTriggerTimestamp` gives five characters `HH:MM` that read back as the hour of day and the minute |
| QuestionnaireData.TriggersForTimeBucketOnDay | app-android/app/src/main/java/de/mimuc/senseeverything/data/QuestionnaireDataRepository.kt:78-100 | the triggers returned are exactly the stored triggers of the given bucket whose valid-from time lies on the same day as the timestamp |
| QuestionnaireData.RecordKeys | app-android/app/src/main/java/de/mimuc/senseeverything/data/QuestionnaireDataRepository.kt:42-52 | one loop step adds exactly the `_pushed` key of a pushed trigger and the `_answered` key of an answered one |
| QuestionnaireData.ReplacementKeys | app-android/app/src/main/java/de/mimuc/senseeverything/data/QuestionnaireDataRepository.kt:34-55 | a key is in the map exactly when some trigger is pushed and the key is its `_pushed` key, or answered and the key is its `_answered` key |
| QuestionnaireData.KeysDiffer | app-android/app/src/main/java/de/mimuc/senseeverything/data/QuestionnaireDataRepository.kt:45-50 | a `_pushed` key never equals an `_answered` key |
| QuestionnaireData.RecordKeepsOtherKeys | app-android/app/src/main/java/de/mimuc/senseeverything/data/QuestionnaireDataRepository.kt:42-52 | one loop step leaves every other key and its value as it was |
| QuestionnaireData.RecordOwnKeys | app-android/app/src/main/java/de/mimuc/senseeverything/data/QuestionnaireDataRepository.kt:42-52 | after one loop step the trigger's own keys hold its formatted push and answer times |
| QuestionnaireData.ReplacementValues | app-android/app/src/main/java/de/mimuc/senseeverything/data/QuestionnaireDataRepository.kt:34-55 | for a trigger whose name no other trigger shares, its keys hold its own formatted push and answer times |
| QuestionnaireData.GetNotificationTriggerTextReplacements | app-android/app/src/main/java/de/mimuc/senseeverything/data/QuestionnaireDataRepository.kt:34-55 | the loop builds the replacement map of the triggers |
| QuestionnaireData.ReplacementsComeFromSameDayAndBucket | app-android/app/src/main/java/de/mimuc/senseeverything/data/QuestionnaireDataRepository.kt:15-32 | a missing questionnaire gives no replacements, and every replacement key belongs to a pushed or answered trigger of the found trigger's bucket and day |
| QuestionnaireData.GetTextReplacementsForPendingQuestionnaire | app-android/app/src/main/java/de/mimuc/senseeverything/data/QuestionnaireDataRepository.kt:15-32 | the method returns nothing for a missing questionnaire or trigger, and otherwise the replacements of the found trigger's day and bucket |
| QuestionnaireElements.ApiNameInjective | app-android/app/src/main/java/de/mimuc/senseeverything/api/model/ema/QuestionnaireElement.kt:7-18 | no two element kinds share an API name |
| QuestionnaireElements.FromApiNameOf | app-android/app/src/main/java/de/mimuc/senseeverything/api/model/ema/QuestionnaireElement.kt:20-25 | `fromApiName` of a kind's API name gives that kind |
| QuestionnaireElements.FromApiNameUnknown | app-android/app/src/main/java/de/mimuc/senseeverything/api/model/ema/QuestionnaireElement.kt:20-25 | a name that is no kind's API name throws with the message "Unknown QuestionnaireElementType: " and the name |
| QuestionnaireElements.FromApiNameSpec | app-android/app/src/main/java/de/mimuc/senseeverything/api/model/ema/QuestionnaireElement.kt:20-25 | `fromApiName` succeeds exactly on the eleven API names, with the kind that has the name |
| QuestionnaireElements.GetAlignmentValue | app-android/app/src/main/java/de/mimuc/senseeverything/api/model/ema/QuestionnaireElement.kt:50-59 | horizontal exactly for the text "horizontal"; "vertical" and every unknown text give vertical |
| QuestionnaireElements.AlignmentRoundTrip | app-android/app/src/main/java/de/mimuc/senseeverything/api/model/ema/QuestionnaireElement.kt:50-59 | an alignment written as its lower-case name reads back as itself |
| QuestionnaireElements.TypeOf | app-android/app/src/main/java/de/mimuc/senseeverything/api/model/ema/QuestionnaireElement.kt:250-486 | every element subclass has a kind other than MALFORMED |
| QuestionnaireElements.StringsRoundTrip | app-android/app/src/main/java/de/mimuc/senseeverything/api/model/ema/QuestionnaireElement.kt:85-91 | an options list written as a JSON array of strings reads back as the same list (written at line 289) |
| QuestionnaireElements.PutNewParam | app-android/app/src/main/java/de/mimuc/senseeverything/api/model/ema/QuestionnaireElement.kt:151-156 | putting a parameter whose key is not yet present appends it to the ordered map |
| QuestionnaireElements.ParamsRoundTrip | app-android/app/src/main/java/de/mimuc/senseeverything/api/model/ema/QuestionnaireElement.kt:373-385 | URL parameters with distinct keys, written as `{key, value}` objects, read back as the same ordered map (lines 151-156) |
| QuestionnaireElements.ParamReadBack | app-android/app/src/main/java/de/mimuc/senseeverything/api/model/ema/QuestionnaireElement.kt:378-383 | one written parameter object reads back as its key and value |
| QuestionnaireElements.RadioGroupRoundTrip | app-android/app/src/main/java/de/mimuc/senseeverything/api/model/ema/QuestionnaireElement.kt:274-293 | a radio group's configuration reads back as its options and alignment (lines 83-102) |
| QuestionnaireElements.CheckboxGroupRoundTrip | app-android/app/src/main/java/de/mimuc/senseeverything/api/model/ema/QuestionnaireElement.kt:295-314 | a checkbox group's configuration reads back as its options and alignment (lines 103-122) |
| QuestionnaireElements.LikertRoundTrip | app-android/app/src/main/java/de/mimuc/senseeverything/api/model/ema/QuestionnaireElement.kt:469-486 | a Likert label configuration reads back as its options (lines 220-236) |
| QuestionnaireElements.ExternalLinkRoundTrip | app-android/app/src/main/java/de/mimuc/senseeverything/api/model/ema/QuestionnaireElement.kt:354-387 | an external questionnaire link reads back as its URL, action text and parameters (lines 145-170) |
| QuestionnaireElements.CircumplexRoundTrip | app-android/app/src/main/java/de/mimuc/senseeverything/api/model/ema/QuestionnaireElement.kt:435-467 | a circumplex reads back as its image URL and four clip values (lines 191-217) |
| QuestionnaireElements.SliderRoundTrip | app-android/app/src/main/java/de/mimuc/senseeverything/api/model/ema/QuestionnaireElement.kt:316-335 | a slider reads back as its minimum, maximum and step size |
| QuestionnaireElements.ConfigRoundTrip | app-android/app/src/main/java/de/mimuc/senseeverything/api/model/ema/QuestionnaireElement.kt:250-486 | every well-formed element's configuration reads back, through its kind, as itself |
| QuestionnaireElements.HeaderRoundTrip | app-android/app/src/main/java/de/mimuc/senseeverything/api/model/ema/QuestionnaireElement.kt:37-47 | `toJson` writes the id, questionnaire id, kind's API name, step, position, name and configuration so that each reads back |
| QuestionnaireElements.ElementFromParts | app-android/app/src/main/java/de/mimuc/senseeverything/api/model/ema/QuestionnaireElement.kt:61-71 | `makeElementFromJson` builds the element from the header fields and the configuration read for its kind |
| QuestionnaireElements.ElementRoundTrip | app-android/app/src/main/java/de/mimuc/senseeverything/api/model/ema/QuestionnaireElement.kt:61-248 | every well-formed element written by `toJson` reads back by `makeElementFromJson` as itself |
| QuestionnaireElements.MalformedReadsAsNothing | app-android/app/src/main/java/de/mimuc/senseeverything/api/model/ema/QuestionnaireElement.kt:238-247 | an element of kind "malformed" reads as nothing, without an error |
| QuestionnaireElements.UnknownTypeThrows | app-android/app/src/main/java/de/mimuc/senseeverything/api/model/ema/QuestionnaireElement.kt:61-64 | an unknown kind name throws "Unknown QuestionnaireElementType: " with the name |
| QuestionnaireElements.MissingClipIsZero | app-android/app/src/main/java/de/mimuc/senseeverything/api/model/ema/QuestionnaireElement.kt:193-203 | a circumplex without `clip` has all four clip values 0 |
| QuestionnaireElements.ReadOptionsLoop | app-android/app/src/main/java/de/mimuc/senseeverything/api/model/ema/QuestionnaireElement.kt:85-91 | the loop over the options array gives the list of the texts `getString(i)` reads, strings as they are and numbers, booleans and null as their texts, and fails on the first entry that has no text |
| QuestionnaireElements.OptionsReadAsTexts | app-android/app/src/main/java/de/mimuc/senseeverything/api/model/ema/QuestionnaireElement.kt:85-91 | an options array whose every entry has a text reads as those texts, in order |
| QuestionnaireElements.NumberOptionReadsAsText | app-android/app/src/main/java/de/mimuc/senseeverything/api/model/ema/QuestionnaireElement.kt:85-91 | options `[5, "b"]` read as "5" and "b" |
| QuestionnaireElements.PrefixFailureStops | app-android/app/src/main/java/de/mimuc/senseeverything/api/model/ema/QuestionnaireElement.kt:85-91 | an entry that `getString(i)` cannot read as text (a floating-point number, an array or an object, whose texts are not modelled) makes the whole options read fail |
| QuestionnaireElements.ReadUrlParamsLoop | app-android/app/src/main/java/de/mimuc/senseeverything/api/model/ema/QuestionnaireElement.kt:151-156 | the loop over the URL parameter array puts each key and value, read as text by `getString`, into the map in order, and fails on the first entry that is not an object with both |
| QuestionnaireElements.NumberParamReadsAsText | app-android/app/src/main/java/de/mimuc/senseeverything/api/model/ema/QuestionnaireElement.kt:151-156 | a parameter whose value is the number 1 reads with the value "1" |
| QuestionnaireElements.ParamFailureStops | app-android/app/src/main/java/de/mimuc/senseeverything/api/model/ema/QuestionnaireElement.kt:151-156 | one malformed parameter object makes the whole read fail |
| QuestionnaireReminderReceiver.ReminderNotificationTime | app-android/app/src/main/java/de/mimuc/senseeverything/service/esm/QuestionnaireReminderNotificationReceiver.kt:125-135 | a time reminder fires at its clock time applied to the notification's day; a duration reminder fires its minutes after the notification |
| QuestionnaireReminderReceiver.DurationReminderOrder | app-android/app/src/main/java/de/mimuc/senseeverything/service/esm/QuestionnaireReminderNotificationReceiver.kt:131-133 | a duration reminder fires after the notification exactly when its minutes are positive, and more minutes never fire earlier |
| QuestionnaireReminderReceiver.OnReceiveSendsIff | app-android/app/src/main/java/de/mimuc/senseeverything/service/esm/QuestionnaireReminderNotificationReceiver.kt:40-72 | a reminder is sent exactly when there is a context, the intent carries a reminder and a pending questionnaire id, that questionnaire is stored and not completed; it carries the reminder's text |
| QuestionnaireReminderReceiver.ScheduleReminderNotification | app-android/app/src/main/java/de/mimuc/senseeverything/service/esm/QuestionnaireReminderNotificationReceiver.kt:75-116 | the alarm table gains the receiver's entry for the questionnaire at the reminder time, and the alarm is set with that entry's request code |
| QuestionnaireReminderReceiver.ClearReminderNotification | app-android/app/src/main/java/de/mimuc/senseeverything/service/esm/QuestionnaireReminderNotificationReceiver.kt:118-123 | the alarm to cancel is the stored one for the questionnaire, with its request code; nothing is cancelled when none is stored |
| QuestionnaireReminderReceiver.ClearFindsScheduledReminder | app-android/app/src/main/java/de/mimuc/senseeverything/service/esm/QuestionnaireReminderNotificationReceiver.kt:94-121 | after scheduling, clearing finds the reminder's alarm and its request code |
| ScheduledAlarms.GenerateRequestCode | app-android/app/src/main/java/de/mimuc/senseeverything/db/models/ScheduledAlarm.kt:31-33 | the request code is a 32-bit Int |
| ScheduledAlarms.RequestCodeIsPolynomial | app-android/app/src/main/java/de/mimuc/senseeverything/db/models/ScheduledAlarm.kt:31-33 | the request code is Java's `String.hashCode` of receiver followed by identifier: the base-31 polynomial of its UTF-16 code units, wrapped to 32 bits; in the Basic Multilingual Plane the units are the characters |
| ScheduledAlarms.RequestCodeOfSurrogatePair | app-android/app/src/main/java/de/mimuc/senseeverything/db/models/ScheduledAlarm.kt:31-33 | a character outside the Basic Multilingual Plane is hashed as its two surrogates: U+1F600 hashes to 31·0xD83D + 0xDE00 |
| ScheduledAlarms.CreateEntry | app-android/app/src/main/java/de/mimuc/senseeverything/db/models/ScheduledAlarm.kt:20-29 | a new entry has uid 0, the current time, the receiver, identifier and timestamp given, and the generated request code |
| ScheduledAlarms.InsertKeepsCodesGenerated | app-android/app/src/main/java/de/mimuc/senseeverything/db/models/ScheduledAlarm.kt:35-44 | inserting a created entry, or `getOrCreateScheduledAlarm`, keeps every stored request code equal to the generated code of its receiver and identifier |
| ScheduledAlarms.GetOrCreateExisting | app-android/app/src/main/java/de/mimuc/senseeverything/db/models/ScheduledAlarm.kt:41-42 | when an alarm for the receiver and identifier is stored, it is returned and the table is unchanged |
| ScheduledAlarms.GetOrCreateInsertsOne | app-android/app/src/main/java/de/mimuc/senseeverything/db/models/ScheduledAlarm.kt:41-43 | otherwise exactly one new entry, with the given timestamp and the generated code, is appended under the next uid, and is found afterwards |
| ScheduledAlarms.GetOrCreateIdempotent | app-android/app/src/main/java/de/mimuc/senseeverything/db/models/ScheduledAlarm.kt:35-44 | a second call for the same receiver and identifier changes nothing and returns the same timestamp, code and creation time, whatever timestamp it is given |
| ScheduledAlarms.GetOrCreateKeepsKeysUnique | app-android/app/src/main/java/de/mimuc/senseeverything/db/models/ScheduledAlarm.kt:35-44 | at most one stored alarm per receiver and identifier stays so |
| ScheduledAlarms.AlarmTable.constructor | app-android/app/src/main/java/de/mimuc/senseeverything/db/models/ScheduledAlarmDao.kt:8-24 | the table starts empty |
| ScheduledAlarms.AlarmTable.GetByIdentifier | app-android/app/src/main/java/de/mimuc/senseeverything/db/models/ScheduledAlarmDao.kt:10-11 | the lookup returns a stored alarm with that receiver and identifier, and nothing exactly when none is stored |
| ScheduledAlarms.AlarmTable.Insert | app-android/app/src/main/java/de/mimuc/senseeverything/db/models/ScheduledAlarmDao.kt:16-17 | the alarm is stored under the next generated uid, which is returned |
| ScheduledAlarms.AlarmTable.GetOrCreateScheduledAlarm | app-android/app/src/main/java/de/mimuc/senseeverything/db/models/ScheduledAlarm.kt:35-44 | the table and the result are those of the stored-or-created specification |
| ScreenSnapshots.NodeTypeOf | app-android/app/src/main/java/de/mimuc/senseeverything/service/accessibility/model/ScreenSnapshot.kt:149-160 | `NodeType.valueOf` returns only a kind whose name is the text |
| ScreenSnapshots.TextCategoryOf | app-android/app/src/main/java/de/mimuc/senseeverything/service/accessibility/model/ScreenSnapshot.kt:162-169 | `TextCategory.valueOf` returns only a category whose name is the text |
| ScreenSnapshots.SizeClassOf | app-android/app/src/main/java/de/mimuc/senseeverything/service/accessibility/model/ScreenSnapshot.kt:171-177 | `SizeClass.valueOf` returns only a class whose name is the text |
| ScreenSnapshots.RegionOf | app-android/app/src/main/java/de/mimuc/senseeverything/service/accessibility/model/ScreenSnapshot.kt:179-183 | `ScreenRegion.valueOf` returns only a region whose name is the text |
| ScreenSnapshots.InteractionTypeOf | app-android/app/src/main/java/de/mimuc/senseeverything/service/accessibility/model/ScreenSnapshot.kt:212-218 | `InteractionType.valueOf` returns only a type whose name is the text |
| ScreenSnapshots.NodeTypeNamesRoundTrip | app-android/app/src/main/java/de/mimuc/senseeverything/service/accessibility/model/ScreenSnapshot.kt:149-160 | every node kind's name reads back as that kind |
| ScreenSnapshots.TextCategoryNamesRoundTrip | app-android/app/src/main/java/de/mimuc/senseeverything/service/accessibility/model/ScreenSnapshot.kt:162-169 | every text category's name reads back as that category |
| ScreenSnapshots.SizeClassNamesRoundTrip | app-android/app/src/main/java/de/mimuc/senseeverything/service/accessibility/model/ScreenSnapshot.kt:171-177 | every size class's name reads back as that class |
| ScreenSnapshots.RegionNamesRoundTrip | app-android/app/src/main/java/de/mimuc/senseeverything/service/accessibility/model/ScreenSnapshot.kt:179-183 | every region's name reads back as that region |
| ScreenSnapshots.InteractionTypeNamesRoundTrip | app-android/app/src/main/java/de/mimuc/senseeverything/service/accessibility/model/ScreenSnapshot.kt:212-218 | every interaction type's name reads back as that type |
| ScreenSnapshots.BaseKeyKept | app-android/app/src/main/java/de/mimuc/senseeverything/service/accessibility/model/ScreenSnapshot.kt:98-118 | the optional keys added after the fixed ones do not overwrite any fixed key |
| ScreenSnapshots.NodeIdsRead | app-android/app/src/main/java/de/mimuc/senseeverything/service/accessibility/model/ScreenSnapshot.kt:100-103 | a node's id and depth read back from its JSON |
| ScreenSnapshots.NodeParentRead | app-android/app/src/main/java/de/mimuc/senseeverything/service/accessibility/model/ScreenSnapshot.kt:101 | the parent id reads back as the parent, or -1 for none |
| ScreenSnapshots.NodeNamesRead | app-android/app/src/main/java/de/mimuc/senseeverything/service/accessibility/model/ScreenSnapshot.kt:102-105 | the kind, region and size class are written by name |
| ScreenSnapshots.NodePlacementRead | app-android/app/src/main/java/de/mimuc/senseeverything/service/accessibility/model/ScreenSnapshot.kt:106-109 | the relative position and size read back |
| ScreenSnapshots.NodeFlagsRead | app-android/app/src/main/java/de/mimuc/senseeverything/service/accessibility/model/ScreenSnapshot.kt:110-112 | clickable, scrollable and editable read back |
| ScreenSnapshots.NodeMoreFlagsRead | app-android/app/src/main/java/de/mimuc/senseeverything/service/accessibility/model/ScreenSnapshot.kt:113-116 | focusable, hasText and hasImage read back |
| ScreenSnapshots.NodeOptionalKeysRead | app-android/app/src/main/java/de/mimuc/senseeverything/service/accessibility/model/ScreenSnapshot.kt:115-117 | `textCategory` and `role` are written exactly when present, with their values |
| ScreenSnapshots.NodeEnumsRoundTrip | app-android/app/src/main/java/de/mimuc/senseeverything/service/accessibility/model/ScreenSnapshot.kt:122-146 | the kind, region and size class read back as themselves |
| ScreenSnapshots.NodeOptionalsRoundTrip | app-android/app/src/main/java/de/mimuc/senseeverything/service/accessibility/model/ScreenSnapshot.kt:122-146 | the parent, text category and role read back as themselves for a node whose parent is not -1 |
| ScreenSnapshots.NodeRoundTrip | app-android/app/src/main/java/de/mimuc/senseeverything/service/accessibility/model/ScreenSnapshot.kt:98-146 | every well-formed node written by `toJson` reads back by `fromJson` as itself |
| ScreenSnapshots.ParentMinusOneIsLost | app-android/app/src/main/java/de/mimuc/senseeverything/service/accessibility/model/ScreenSnapshot.kt:101-125 | a parent id of -1 reads back as no parent: -1 is the encoding of none |
| ScreenSnapshots.NodesRoundTrip | app-android/app/src/main/java/de/mimuc/senseeverything/service/accessibility/model/ScreenSnapshot.kt:53-65 | the node list written as an array reads back as the same list in order |
| ScreenSnapshots.SkeletonRoundTrip | app-android/app/src/main/java/de/mimuc/senseeverything/service/accessibility/model/ScreenSnapshot.kt:46-72 | a tree skeleton reads back as its signature and nodes |
| ScreenSnapshots.InteractionRoundTrip | app-android/app/src/main/java/de/mimuc/senseeverything/service/accessibility/model/ScreenSnapshot.kt:185-210 | an interaction event with an Int target reads back as itself |
| ScreenSnapshots.SnapshotFieldsRead | app-android/app/src/main/java/de/mimuc/senseeverything/service/accessibility/model/ScreenSnapshot.kt:17-25 | the snapshot's timestamp, package, framework and skeleton read back, and `interaction` is written exactly when present |
| ScreenSnapshots.SnapshotRoundTrip | app-android/app/src/main/java/de/mimuc/senseeverything/service/accessibility/model/ScreenSnapshot.kt:10-40 | every well-formed screen snapshot written by `toJson` reads back by `fromJson` as itself |
| SensorReadingsUpload.Work | app-android/app/src/main/java/de/mimuc/senseeverything/workers/SensorReadingsUploadWorker.kt:49-70 | an empty token fails at once and leaves the readings untouched |
| SensorReadingsUpload.DrainDeletesExactlyPosted | app-android/app/src/main/java/de/mimuc/senseeverything/workers/SensorReadingsUploadWorker.kt:72-128 | after the recursive sync the remaining rows are exactly the rows whose ids were not in a posted batch, and every posted reading was a stored unsynced row |
| SensorReadingsUpload.DrainedLeavesNoUnsynced | app-android/app/src/main/java/de/mimuc/senseeverything/workers/SensorReadingsUploadWorker.kt:80-84 | when the sync ends with success no unsynced reading is left |
| SensorReadingsUpload.StoppedRoundKeepsBatch | app-android/app/src/main/java/de/mimuc/senseeverything/workers/SensorReadingsUploadWorker.kt:114-127 | a sync that stops with retry or failure (or on the division by a remaining count of zero) leaves its unsent batch stored |
| SensorReadingsUpload.DrainNeverCrashes | app-android/app/src/main/java/de/mimuc/senseeverything/workers/SensorReadingsUploadWorker.kt:64-86 | starting from the unsynced count, `remaining` never reaches zero while a batch is left, so the progress division never fails |
| SensorReadingsUpload.WorkOutcomes | app-android/app/src/main/java/de/mimuc/senseeverything/workers/SensorReadingsUploadWorker.kt:49-70 | with a token, success means no unsynced reading is left, and any other result leaves a batch to send next time |
| SensorReadingsUpload.BuildPayload | app-android/app/src/main/java/de/mimuc/senseeverything/workers/SensorReadingsUploadWorker.kt:88-95 | the payload has one reading per row, in order, with its sensor name, timestamp and data |
| SensorReadingsUpload.SyncNextNActivities | app-android/app/src/main/java/de/mimuc/senseeverything/workers/SensorReadingsUploadWorker.kt:72-128 | the recursive sync leaves the log table and returns the result of the drain specification, where the division throwing in a later round is caught by the round before and fails the run |
| SensorReadingsUpload.Caught | app-android/app/src/main/java/de/mimuc/senseeverything/workers/SensorReadingsUploadWorker.kt:116-127 | the `catch` around the recursive call turns the next round's division-by-zero exception into a failure and passes every other end through |
| SensorReadingsUpload.CrashOnlyInFirstRound | app-android/app/src/main/java/de/mimuc/senseeverything/workers/SensorReadingsUploadWorker.kt:64-86 | the exception escapes to `doWork` (and becomes a retry) exactly when the first round finds a batch with `remaining` at zero |
| SensorReadingsUpload.LaterCrashFails | app-android/app/src/main/java/de/mimuc/senseeverything/workers/SensorReadingsUploadWorker.kt:86-127 | when the division throws in the second round, the first batch stays deleted and the run ends with `failure()`, not a retry |
| SensorReadingsUpload.DoWork | app-android/app/src/main/java/de/mimuc/senseeverything/workers/SensorReadingsUploadWorker.kt:49-70 | the worker's result and the log table are those of the work specification |
| SnapshotBatching.TakeCount | app-android/app/src/main/java/de/mimuc/senseeverything/service/accessibility/SnapshotBatchManager.kt:63-65 | a flush drains the whole queue or `batchSize` snapshots, whichever is fewer, and nothing for a batch size of zero or less |
| SnapshotBatching.Cleanup | app-android/app/src/main/java/de/mimuc/senseeverything/service/accessibility/SnapshotBatchManager.kt:140-150 | cleanup keeps exactly the stored batches created within the last five minutes and changes nothing else |
| SnapshotBatching.KeepNewer | app-android/app/src/main/java/de/mimuc/senseeverything/service/accessibility/SnapshotBatchManager.kt:142-143 | the batches kept are exactly those not older than the cutoff |
| SnapshotBatching.BatchCountRead | app-android/app/src/main/java/de/mimuc/senseeverything/service/accessibility/SnapshotBatchManager.kt:76-84 | the batch JSON's `count` reads back as the number of snapshots and `timestamp` as the time |
| SnapshotBatching.BatchSnapshotsRead | app-android/app/src/main/java/de/mimuc/senseeverything/service/accessibility/SnapshotBatchManager.kt:80-82 | the batch's `snapshots` array reads back as the snapshots in order |
| SnapshotBatching.FlushDrainsOldestBatch | app-android/app/src/main/java/de/mimuc/senseeverything/service/accessibility/SnapshotBatchManager.kt:58-118 | a flush removes the oldest k snapshots from the queue; when k > 0 it stores one batch of them under the next id and broadcasts that id, count and time, and otherwise changes nothing |
| SnapshotBatching.EmptyFlushStoresNothing | app-android/app/src/main/java/de/mimuc/senseeverything/service/accessibility/SnapshotBatchManager.kt:67 | flushing an empty queue changes nothing |
| SnapshotBatching.AddKeepsQueueBelowBatch | app-android/app/src/main/java/de/mimuc/senseeverything/service/accessibility/SnapshotBatchManager.kt:50-56 | adding keeps the queue shorter than the batch size: the snapshot that fills it flushes one batch, and below that it is only queued |
| SnapshotBatching.SnapshotBatchManager.constructor | app-android/app/src/main/java/de/mimuc/senseeverything/service/accessibility/SnapshotBatchManager.kt:26-48 | the manager starts with an empty queue, the batch size given and the stored batches |
| SnapshotBatching.SnapshotBatchManager.Stats | app-android/app/src/main/java/de/mimuc/senseeverything/service/accessibility/SnapshotBatchManager.kt:155-161 | the statistics are the queue length and the number of stored batches |
| SnapshotBatching.SnapshotBatchManager.BroadcastBatch | app-android/app/src/main/java/de/mimuc/senseeverything/service/accessibility/SnapshotBatchManager.kt:86-118 | the manager's state becomes that of storing the batch and broadcasting its id |
| SnapshotBatching.SnapshotBatchManager.FlushBatch | app-android/app/src/main/java/de/mimuc/senseeverything/service/accessibility/SnapshotBatchManager.kt:58-74 | the drain loop and the broadcast leave the manager in the state of the flush specification |
| SnapshotBatching.SnapshotBatchManager.AddSnapshot | app-android/app/src/main/java/de/mimuc/senseeverything/service/accessibility/SnapshotBatchManager.kt:50-56 | the manager's state becomes that of the add specification |
| SnapshotBatching.SnapshotBatchManager.PeriodicFlush | app-android/app/src/main/java/de/mimuc/senseeverything/service/accessibility/SnapshotBatchManager.kt:120-129 | a timer tick flushes exactly when the queue is not empty |
| SnapshotBatching.SnapshotBatchManager.CleanupOldBatches | app-android/app/src/main/java/de/mimuc/senseeverything/service/accessibility/SnapshotBatchManager.kt:140-150 | the stored batches become those of the cleanup specification |
| SnapshotBatching.SnapshotBatchManager.Shutdown | app-android/app/src/main/java/de/mimuc/senseeverything/service/accessibility/SnapshotBatchManager.kt:163-168 | shutting down flushes one last batch |
| UiClassifiers.ClassifyNodeType | app-android/app/src/main/java/de/mimuc/senseeverything/service/accessibility/UITreeConsumer.kt:201-242 | no class name gives UNKNOWN, a list class name gives LIST whatever else it contains, and CONTAINER only for a named node with children |
| UiClassifiers.ClickableOnlyMakesTextButtons | app-android/app/src/main/java/de/mimuc/senseeverything/service/accessibility/UITreeConsumer.kt:220-235 | being clickable changes the kind only for class names containing "text", and then makes a BUTTON of what would be an image, video, web view or text |
| UiClassifiers.ChildrenOnlyMakeContainers | app-android/app/src/main/java/de/mimuc/senseeverything/service/accessibility/UITreeConsumer.kt:237-240 | the number of children matters only between CONTAINER and UNKNOWN |
| UiClassifiers.NestedScrollViewIsScrollView | app-android/app/src/main/java/de/mimuc/senseeverything/service/accessibility/UITreeConsumer.kt:211-212 | every "nestedscrollview" also contains "scrollview", so the second test adds nothing |
| UiClassifiers.ImageKindHasImage | app-android/app/src/main/java/de/mimuc/senseeverything/service/accessibility/UITreeConsumer.kt:259-262 | a node classified as IMAGE (line 226) is also flagged as having an image |
| Text.TrimStart | app-android/app/src/main/java/de/mimuc/senseeverything/service/accessibility/UITreeConsumer.kt:247 | trimming the start cuts only Kotlin whitespace (no-break and ideographic spaces included, U+0085 not), leaves no leading whitespace, and leaves nothing exactly for a blank text |
| Text.TrimEnd | app-android/app/src/main/java/de/mimuc/senseeverything/service/accessibility/UITreeConsumer.kt:247 | trimming the end cuts only Kotlin whitespace, leaves no trailing whitespace, and leaves nothing exactly for a blank text |
| Text.Trim | app-android/app/src/main/java/de/mimuc/senseeverything/service/accessibility/UITreeConsumer.kt:247 | `trim()` is the text with Kotlin whitespace cut from both ends and nothing else: no whitespace is left at either end, and nothing is left exactly for a blank text |
| UiClassifiers.SplitOnSpaces | app-android/app/src/main/java/de/mimuc/senseeverything/service/accessibility/UITreeConsumer.kt:247 | splitting on runs of `\s` whitespace gives at least one part |
| UiClassifiers.SplitCountsSpaceRuns | app-android/app/src/main/java/de/mimuc/senseeverything/service/accessibility/UITreeConsumer.kt:247 | the split gives one part more than there are runs of `\s` whitespace |
| UiClassifiers.TrimNeverAddsWords | app-android/app/src/main/java/de/mimuc/senseeverything/service/accessibility/UITreeConsumer.kt:247 | trimming never adds a word; it can remove words made only of whitespace outside `\s`, such as a no-break space |
| UiClassifiers.TrimKeepsWords | app-android/app/src/main/java/de/mimuc/senseeverything/service/accessibility/UITreeConsumer.kt:247 | when the only whitespace in a text is `\s` whitespace, trimming keeps every word |
| UiClassifiers.NoBreakSpaceIsWhitespace | app-android/app/src/main/java/de/mimuc/senseeverything/service/accessibility/UITreeConsumer.kt:244-257 | "a b" followed by a no-break space is SINGLE_WORD, and a space followed by a no-break space is EMPTY, because `trim()` and `isBlank()` treat the no-break space as whitespace |
| UiClassifiers.WordCountIsWords | app-android/app/src/main/java/de/mimuc/senseeverything/service/accessibility/UITreeConsumer.kt:247 | for a text that is not blank, the number of parts of the trimmed text split on `\s` runs is its number of words |
| UiClassifiers.CategorizeText | app-android/app/src/main/java/de/mimuc/senseeverything/service/accessibility/UITreeConsumer.kt:244-257 | no category exactly when the node has neither text nor content description |
| UiClassifiers.CategoryIsWordBucket | app-android/app/src/main/java/de/mimuc/senseeverything/service/accessibility/UITreeConsumer.kt:244-257 | the text (or else the description) is EMPTY exactly when it is blank in Kotlin's sense; otherwise it falls in the bucket of the word count of the trimmed text (up to 2, 10, 30, 100 words, or more), which is the word count of the text itself when its only whitespace is `\s` whitespace |
| UiClassifiers.CategoryMonotone | app-android/app/src/main/java/de/mimuc/senseeverything/service/accessibility/UITreeConsumer.kt:250-256 | more words never give a smaller category, and a word count alone never gives EMPTY |
| UiClassifiers.Band | app-android/app/src/main/java/de/mimuc/senseeverything/service/accessibility/UITreeConsumer.kt:287-297 | a relative coordinate falls in one of the three bands 0, 1 or 2 |
| UiClassifiers.BandMonotone | app-android/app/src/main/java/de/mimuc/senseeverything/service/accessibility/UITreeConsumer.kt:287-297 | a larger coordinate never falls in a lower band |
| UiClassifiers.CalculateRegion | app-android/app/src/main/java/de/mimuc/senseeverything/service/accessibility/UITreeConsumer.kt:283-300 | the region's row is the band of the centre's height and its column the band of the centre's width |
| UiClassifiers.RegionIndexIsExact | app-android/app/src/main/java/de/mimuc/senseeverything/service/accessibility/UITreeConsumer.kt:299 | `row * 3 + col` indexes exactly the region with that row and column |
| UiClassifiers.SizeClassMonotone | app-android/app/src/main/java/de/mimuc/senseeverything/service/accessibility/UITreeConsumer.kt:307-313 | a larger share of the screen never gives a smaller size class |
| UiClassifiers.LargerNodeLargerClass | app-android/app/src/main/java/de/mimuc/senseeverything/service/accessibility/UITreeConsumer.kt:302-314 | a node of larger area never gets a smaller size class |
| UiClassifiers.WholeScreenIsFullscreen | app-android/app/src/main/java/de/mimuc/senseeverything/service/accessibility/UITreeConsumer.kt:302-314 | a node covering the whole screen is FULLSCREEN |
| UiTree.ExtractRole | app-android/app/src/main/java/de/mimuc/senseeverything/service/accessibility/UITreeConsumer.kt:264-281 | no extras give no role; a React Native `accessibilityRole` wins; otherwise the role description, only from Android P on |
| UiTree.MakeNode | app-android/app/src/main/java/de/mimuc/senseeverything/service/accessibility/UITreeConsumer.kt:169-188 | the skeleton node carries the id, parent and depth it is given |
| UiTree.BuildSkeleton | app-android/app/src/main/java/de/mimuc/senseeverything/service/accessibility/UITreeConsumer.kt:153-199 | the recursive walk appends the skeleton of the node and its children, in pre-order, as the specification function does |
| UiTree.AppendFlattened | app-android/app/src/main/java/de/mimuc/senseeverything/service/accessibility/UITreeConsumer.kt:159-190 | appending a node whose id is its position keeps the list flattened and anchors its children under it |
| UiTree.SkeletonFlattened | app-android/app/src/main/java/de/mimuc/senseeverything/service/accessibility/UITreeConsumer.kt:153-199 | every node's id is its position in the list and every parent id names an earlier node, one level up; earlier nodes are kept |
| UiTree.ChildrenFlattened | app-android/app/src/main/java/de/mimuc/senseeverything/service/accessibility/UITreeConsumer.kt:193-198 | the children's walk keeps the list flattened and keeps the nodes before it |
| UiTree.WindowSkeletonShape | app-android/app/src/main/java/de/mimuc/senseeverything/service/accessibility/UITreeConsumer.kt:96-110 | from the root the list is flattened, empty exactly when the root is not shown, and otherwise starts with the root as node 0 without parent |
| UiTree.SignatureIgnoresContent | app-android/app/src/main/java/de/mimuc/senseeverything/service/accessibility/UITreeConsumer.kt:353-359 | two node lists with the same kinds, depths, regions, size classes and clickability have the same signature |
| UiTree.SearchDeeper | app-android/app/src/main/java/de/mimuc/senseeverything/service/accessibility/UITreeConsumer.kt:337-351 | a class name found within some depth is also found within a larger one |
| UiTree.ChildrenSearchDeeper | app-android/app/src/main/java/de/mimuc/senseeverything/service/accessibility/UITreeConsumer.kt:343-349 | the same for the search over the children |
| UiTree.SearchOneLevel | app-android/app/src/main/java/de/mimuc/senseeverything/service/accessibility/UITreeConsumer.kt:337-342 | with depth 1 only the node's own class name is looked at |
| UiTree.ChildrenFindNothingAtDepthZero | app-android/app/src/main/java/de/mimuc/senseeverything/service/accessibility/UITreeConsumer.kt:338 | a search with depth 0 finds nothing |
| UiTree.DetectFramework | app-android/app/src/main/java/de/mimuc/senseeverything/service/accessibility/UITreeConsumer.kt:316-335 | NATIVE exactly when no framework marker is found, REACT_NATIVE exactly when the React root view is, and FLUTTER only with a Flutter view |
| UiTree.BestMatch | app-android/app/src/main/java/de/mimuc/senseeverything/service/accessibility/UITreeConsumer.kt:405-429 | the best match, if any, is a position in the node list |
| UiTree.BestMatchIsFirstSmallest | app-android/app/src/main/java/de/mimuc/senseeverything/service/accessibility/UITreeConsumer.kt:405-429 | the match is the first node holding the point with the smallest area below Float.MAX_VALUE, and none exactly when no such node exists |
| UiTree.FindNodeIdByBounds | app-android/app/src/main/java/de/mimuc/senseeverything/service/accessibility/UITreeConsumer.kt:405-429 | the loop returns the id of the best match for the relative centre of the bounds |
| UiTree.CaptureOnlyOnNewSignature | app-android/app/src/main/java/de/mimuc/senseeverything/service/accessibility/UITreeConsumer.kt:96-141 | a capture changes the state only for a shown root whose signature differs from the last; it then stores that signature and skeleton, which is flattened, and queues the snapshot |
| UiTree.CaptureTwiceQueuesOnce | app-android/app/src/main/java/de/mimuc/senseeverything/service/accessibility/UITreeConsumer.kt:118-122 | capturing the same screen twice queues it once |
| UiTree.DebounceDropsEarlyChanges | app-android/app/src/main/java/de/mimuc/senseeverything/service/accessibility/UITreeConsumer.kt:143-151 | a content change within 500 ms of the last one is dropped; otherwise its time is recorded |
| UiTree.RecordTargetsSmallestNode | app-android/app/src/main/java/de/mimuc/senseeverything/service/accessibility/UITreeConsumer.kt:366-403 | recording an interaction keeps the screen state, and queues a snapshot only with a source and a current skeleton, targeting the best-matching node |
| UiTree.TextInputOnlyOnEditable | app-android/app/src/main/java/de/mimuc/senseeverything/service/accessibility/UITreeConsumer.kt:48-94 | touch starts, unhandled events and text changes on a source that is not editable change nothing |
| UiTree.UiTreeConsumer.constructor | app-android/app/src/main/java/de/mimuc/senseeverything/service/accessibility/UITreeConsumer.kt:36-46 | the consumer starts with no signature, no skeleton, debounce time 0 and a batch manager over the stored batches |
| UiTree.UiTreeConsumer.ProcessSnapshot | app-android/app/src/main/java/de/mimuc/senseeverything/service/accessibility/UITreeConsumer.kt:431-438 | the snapshot is added to the batch manager |
| UiTree.UiTreeConsumer.CaptureTreeSkeleton | app-android/app/src/main/java/de/mimuc/senseeverything/service/accessibility/UITreeConsumer.kt:96-141 | the consumer's state becomes that of the capture specification |
| UiTree.UiTreeConsumer.CaptureTreeSkeletonDebounced | app-android/app/src/main/java/de/mimuc/senseeverything/service/accessibility/UITreeConsumer.kt:143-151 | the consumer's state becomes that of the debounced capture specification |
| UiTree.UiTreeConsumer.RecordInteraction | app-android/app/src/main/java/de/mimuc/senseeverything/service/accessibility/UITreeConsumer.kt:366-403 | the consumer's state becomes that of the record specification |
| UiTree.UiTreeConsumer.ConsumeEvent | app-android/app/src/main/java/de/mimuc/senseeverything/service/accessibility/UITreeConsumer.kt:48-94 | each event type is dispatched as the specification says |
| UiTree.UiTreeConsumer.Shutdown | app-android/app/src/main/java/de/mimuc/senseeverything/service/accessibility/UITreeConsumer.kt:440-442 | shutting down flushes the batch manager |
| SensitiveData.AllowedCharsAreAlphanumeric | app-android/app/src/main/java/de/mimuc/senseeverything/helpers/SensitiveData.kt:18 | the 62 allowed characters are exactly the ASCII upper-case letters, lower-case letters and digits |
| SensitiveData.GetRandomString | app-android/app/src/main/java/de/mimuc/senseeverything/helpers/SensitiveData.kt:17-22 | the string has one drawn allowed character for each of `1..length`, and is empty for a length of zero or less |
| SensitiveData.SaltShape | app-android/app/src/main/java/de/mimuc/senseeverything/helpers/SensitiveData.kt:6-8 | a salt has sixteen characters, each a letter or a digit |
| SensitiveData.IndexOf | app-android/app/src/main/java/de/mimuc/senseeverything/helpers/SensitiveData.kt:18 | each letter or digit has a position among the allowed characters |
| SensitiveData.EveryAlphanumericStringCanBeDrawn | app-android/app/src/main/java/de/mimuc/senseeverything/helpers/SensitiveData.kt:17-22 | every string of letters and digits is a possible random string of its length |
| SensitiveData.HexValue | app-android/app/src/main/java/de/mimuc/senseeverything/helpers/SensitiveData.kt:32 | a lowercase hex digit has a value below 16 |
| SensitiveData.HexShape | app-android/app/src/main/java/de/mimuc/senseeverything/helpers/SensitiveData.kt:28-33 | the hex text has two lowercase hex digits per digest byte |
| SensitiveData.HexRoundTrip | app-android/app/src/main/java/de/mimuc/senseeverything/helpers/SensitiveData.kt:28-33 | the `%02x` text of the digest reads back as the digest's bytes |
| SensitiveData.GetSensitiveDataHash | app-android/app/src/main/java/de/mimuc/senseeverything/helpers/SensitiveData.kt:10-15 | a warning is logged exactly for an empty salt or the placeholder "changemepleeease" |
| SensitiveData.HashIsSaltedDigest | app-android/app/src/main/java/de/mimuc/senseeverything/helpers/SensitiveData.kt:10-15 | the hash is the hex of the SHA-256 of data followed by salt, twice the digest's length, and depends only on that concatenation |
| OnboardingUrls.GetQueryParameter | app-android/app/src/main/java/de/mimuc/senseeverything/activity/onboarding/Helpers.kt:29-36 | the first value given for the name, nothing when the name is absent, and an exception for a link without a hierarchical part |
| OnboardingUrls.FirstValue | app-android/app/src/main/java/de/mimuc/senseeverything/activity/onboarding/Helpers.kt:29-36 | the value found is that of the first parameter with the name, and nothing is found exactly when no parameter has it |
| OnboardingUrls.ParseSpec | app-android/app/src/main/java/de/mimuc/senseeverything/activity/onboarding/Helpers.kt:16-44 | a link is accepted exactly when its host and path match, its query can be read and its first `studyKey` is present and not blank; the result is that key and the first `source`, or "" |
| OnboardingUrls.DocumentedFormsAccepted | app-android/app/src/main/java/de/mimuc/senseeverything/activity/onboarding/Helpers.kt:6-44 | both documented link forms are accepted with their study key, and a missing source gives "" |
| OnboardingUrls.RefusedLinks | app-android/app/src/main/java/de/mimuc/senseeverything/activity/onboarding/Helpers.kt:19-33 | another host, a missing path, and a missing or blank study key are refused |
| OnboardingUrls.WhitespaceKeys | app-android/app/src/main/java/de/mimuc/senseeverything/activity/onboarding/Helpers.kt:29-33 | blankness is Kotlin's `isBlank()`: a study key that is one ideographic space (U+3000) is refused, and one that is next line (U+0085) is accepted |
| OnboardingUrls.SchemeAndPathSuffixIgnored | app-android/app/src/main/java/de/mimuc/senseeverything/activity/onboarding/Helpers.kt:19-21 | the scheme is not looked at and the path is matched by its start only, so any continuation of the onboarding path is accepted the same way |

## Left out

- Time: local time is UTC with no daylight saving, so a day is always 86 400 000 ms long. Every clock reading is a `now` parameter.
- Several clock readings within one call share one `now`: the whole loop of `ChangePhaseReceiver.SchedulePhaseChanges`, `finishedAt` and `updatedAt` in `PendingQuestionnaires.PendingQuestionnaire.MarkCompleted`, `pushedAt` and `updatedAt` in `NotificationTriggerReceiving.SetPushed`, the throttle test and the recorded time in `PermissionNotifications.Show`, the batch timestamp and the row's creation time in `SnapshotBatching.Flush`, `addedAt`, the `validUntil` base and `updatedAt` in `PendingQuestionnaires.CreateEntry`, `addedAt`, `validFrom` and `updatedAt` in `EsmHandler.PushedNotificationTriggerSpec`, the `addedAt` of every notification of a multi-day plan in `FloatingWidgetScheduler.PlannedNotification`, and the debounce reading, the snapshot timestamp and the batch's creation time in `UiTree.Capture`, `UiTree.CaptureDebounced` and `UiTree.Record`. The source reads the clock again each time, so these values can differ there by the milliseconds the call takes. Where the source's `NotificationTrigger(...)` calls pass no `updatedAt` (the planned notifications and `applyTimeoutTrigger`), although the field has no default, the model chooses one: `now` for a planned notification and the followed notification's `addedAt` for its timeout twin.
- EsmHandler.PushedNotificationTriggerSpec: `addedAt`, `validFrom` and `updatedAt` of the rule-based trigger are one `now`. The source reads the clock for each of the three, so they can differ by the milliseconds between the readings.
- PendingQuestionnaires.CreateEntry: `addedAt`, the base of `validUntil` and `updatedAt` are one `now`. `createEntry` reads the clock for each of the three, so they can differ by the milliseconds between the readings.
- Randomness: `Random`, `(a..b).random()` and fresh UUIDs are streams of draws given by the caller.
- Input and output: JSON text, files, the database, HTTP requests, intents, notifications and the window manager are left out. Each is reduced to the value it produces or the record it keeps.
- Floating point: Kotlin `Float`/`Double` values are exact reals, so rounding is not modelled.
- Kotlin `Long` overflow is not modelled. `Int` wrap-around is modelled where the source relies on it (request codes, `hashCode`, pending intent ids).
- AudioSegmentReader.Process: `position` and `currentSectionLength` are Kotlin `Int`s, and `VadReader`'s segment sums are `fold(0)` over `Int`. The model counts bytes with unbounded integers, so it does not wrap where the source would: past 2^31 bytes, about 18 hours of 16 kHz 16-bit audio.
- SHA-256 and the text-to-bytes encoding are a `digest` or `hash` parameter.
- Concurrency: coroutines, flows and handlers run to completion in the order of the calls. Interleavings and races are not modelled.
- EsmHandler.NextRandomTime: the source's recursive search has no bound. The model allows a given number of `rounds`, and `OutOfRounds` stands for a search that has not ended within them.
- QuestionnaireData.FindNextNotificationTrigger: the walk up the chain of source questionnaires carries `fuel`. `Unbounded` stands for a walk that does not end within it, as with a cyclic chain.
- QuestionnaireReminderReceiver.ReminderNotificationTime: the time-of-day reminder uses `applyTime` as a parameter, because the helper that sets a time on a calendar day is not part of this model.
- The repository queries of the backend are reads of in-memory tables: a one-row query reads the first matching row in table order. SQL, transactions and the configuration repository's version bump are left out.
- The sensor drivers, the native voice-activity libraries, the Compose screens, the WorkManager and alarm wiring, and the HTTP clients are left out, because they are platform or library code. Sensors are reduced to their flags and a `running` state.
- LogService's health check is an emitted effect; what the check inspects is left out. Interaction-widget logging only records the messages sent to a bound service.
- The superseded duplicates are left out: the older onboarding activity, the Java `InteractionFloatingWidgetService` and the two Java `LogDataDao` files.
- The upload worker calls `getNextNUnsynced`, which the Kotlin `LogDataDao` does not declare; only `db/LogDataDao.java` does. It is modelled as the oldest `n` unsynced rows, which is `getNextNUnsyncedBefore` without the cutoff.
- DataStore.DataStoreManager.constructor: reads the stored file with the corrected recovery, which keeps the sensitive-data salt. The app's `readFrom` drops the salt, as the Findings table shows with `DataStore.SaltLostOnRead`. The stateful store, and the modules built on it, therefore follow the intended behaviour rather than the code as written.
- Text.ParseInt: reads only the ASCII digits 0 to 9. Kotlin's `toInt()` and `toIntOrNull()` accept every Unicode decimal digit, such as the Arabic-Indic digits, so a number written with them parses in the app and not in the model.
- Text.Lower: folds only the ASCII letters. Kotlin's `lowercase()` folds every Unicode letter. For example, the Kelvin sign U+212A becomes `k`, so a class name spelled with it can match in the app and not in `UiClassifiers.ClassifyNodeType`.
- DataStore: only the getters that the modelled operations read are modelled. The `Flow` plumbing is left out.
- Json.AsText: the text that `getString` gives a floating-point number, an array or an object is not modelled. An options or URL-parameter entry of one of those kinds makes the read fail in the model. Number texts are read back only as whole decimal numbers: fractions, exponents, `NaN` and `Infinity` are not modelled.
- The raw configuration object that each questionnaire element keeps is not modelled.
- EsmResponse.TriggerBody: keeps 6 of the 15 fields of the uploaded notification trigger: uid, trigger id, questionnaire id, name, `validFrom` and `updatedAt`. The status, priority, modality, source, `addedAt` and the four lifecycle times (planned, pushed, displayed, answered) are copied unchanged by the insert and the update and decide nothing, so they are left out. The schema's `z.number()` fields are whole numbers (`int`) in the model, where JavaScript numbers may carry fractions.

## Findings

| source | as written | input that shows it | evidently intended | confidence | as-written member | corrected member |
|---|---|---|---|---|---|---|
| app-android/app/src/main/java/de/mimuc/senseeverything/data/DataStoreManager.kt:107-131 | `recoverFromOptionalOrUseDefault` copies every field except `sensitiveDataSalt`, so the recovered settings have no salt | any stored settings whose `sensitiveDataSalt` is set: reading them back gives a null salt | the salt is read back like every other field | not executed | DataStore.SaltLostOnRead | DataStore.RecoverRoundTrip |
