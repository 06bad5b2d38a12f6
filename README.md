# garoon-sync, modelled in Dafny

garoon-sync is a desktop application that copies the schedules of a Garoon groupware account
into a Google calendar. This project models its core and proves properties of that model.

The core covered here:

- **Schedule normalisation.** A loosely shaped Garoon event is turned into a canonical schedule:
  members, visibility and event-type codes, the date or date-time span, and the repeat
  condition. The result is a `Result` carrying the parse error the code throws.
- **Google event generation.** The event record, and its RRULE/EXDATE lines in the style of
  section 3.3.10 (RECUR) and section 3.8.5.1 (EXDATE) of RFC 5545.
- **Three generations of recurrence code**, each modelled on its own:
  - the functions of `schedule.ts`;
  - the single class of `schedule/recurrence.ts`;
  - the class hierarchy of `schedule/recurrence/index.ts`, with `daily.ts`, `weekly.ts` and
    `monthly.ts`.

  Lemmas relate the three generations.
- **The synchronizer.** One cycle:
  1. reads the cached schedules of the next thirty days;
  2. fetches the groupware schedules once (the cycle passes no retry count, so the default of none applies);
  3. settles the cached ids that the fetch no longer returns;
  4. walks the fetched schedules in order, inserting, updating or skipping each in the calendar,
     with the insert/update fallbacks, and writing the cache only after a successful calendar
     write;
  5. reports progress through the status reducer.
- **The schedule cache.** It is a generic keyed store with upsert semantics, the sortable
  date-time key, and the literal range query.
- **The small pure parts:**
  - the sync-status reducer;
  - the Google error classifier;
  - the three tutorial-wizard reducers;
  - the packaging path filter.

The modules:

| module | file | models |
|---|---|---|
| `Wrappers` | wrappers.dfy | `Option`, `Result` |
| `Text` | text.dfy | decimal text, padding, joining, string order |
| `Calendar` | calendar.dfy | dates, clocks, moments, `DateTime`, weekday and frequency codes |
| `GaroonEvent` | garoon_event.dfy | the raw groupware event |
| `RecurrenceRules` | rrule.dfy | RRULE parts and EXDATE spellings shared by the generators |
| `Schedules` | schedule.dfy | `schedule.ts` |
| `ScheduleExamples` | schedule_examples.dfy | the recurring event of `schedule.test.ts` |
| `ScheduleRecurrence` | schedule_recurrence.dfy | `schedule/recurrence.ts` |
| `RecurrenceClasses` | recurrence_classes.dfy | `schedule/recurrence/index.ts`, `daily.ts`, `weekly.ts`, `monthly.ts` |
| `Generations` | generations.dfy | agreement between the three generations |
| `Stores` | store.dfy | `store.ts` |
| `UserStores` | user_store.dfy | `user-store.ts` |
| `ScheduleStores` | schedule_store.dfy | `schedule-store.ts` |
| `SyncStatus` | sync.dfy | `sync.ts` |
| `GoogleErrors` | google.dfy | `createErrorResponse` of `google.ts` |
| `CalendarService` | calendar_service.dfy | the calendar calls of `google.ts` |
| `GaroonSource` | garoon_source.dfy | the groupware client calls the synchronizer makes |
| `Synchronization` | synchronizer.dfy | `synchronizer.ts` |
| `GaroonForm` | garoon_form.dfy | `renderer/modules/garoon.ts` |
| `GoogleCalendarForm` | google_calendar_form.dfy | `renderer/modules/google-calendar.ts` |
| `Tutorial` | tutorial.dfy | `renderer/modules/tutorial.ts` |
| `Packager` | packager.dfy | `util/packager.ts` |

Things the program reads from the outside world are parameters of the model:

- **The clock.** `now`, and the end of the thirty-day period as `periodEnd`.
- **moment-timezone.** A `TimeZoneDb` of two functions: localising a timestamp into a zone, and
  printing an ISO instant.
- **The groupware server.** Queues of replies, one for range queries and one for by-id
  queries. An empty queue means the server is unreachable.
- **The Google calendar.** A map from event id to event. The ids for which calls fail without a
  status code are given as a set.
- **The datastore.**
  - Whether its range query fails.
  - The ids whose documents it fails to read or to write.
- **`url.parse`.** What it does with a string.

## Model

| member | source | states |
|---|---|---|
| GaroonEvent.Items | src/app/js/main/schedule.ts:191-199 | a single element is read as a one-element list, an array as itself in order |
| GaroonEvent.ExclusionDates | src/app/js/main/schedule/recurrence/index.ts:55-65 | no exclusions give no dates; otherwise each listed stamp read in the event's zone, in order |
| Schedules.ClassifyFoldIsReference | src/app/js/main/schedule.ts:174-189 | the accumulating loop over members yields the attendees and the locations of the members, in member order |
| Schedules.ClassificationCounts | src/app/js/main/schedule.ts:162-189 | at most one entry per member; a member that is neither a named user nor a named facility is dropped; every named user becomes an attendee |
| Schedules.MembersSplitInOrder | src/app/js/main/schedule.ts:191-199 | absent members give two empty lists; a single member is treated as a one-element list |
| Schedules.CodeTables | src/app/js/main/schedule.ts:330-359 | each visibility's code reads back as itself; an absent public type is Public; exactly `public`, `private` and `qualified` are known |
| Schedules.WeekdayFromText | src/app/js/main/schedule.ts:201-219 | accepts exactly the texts "0".."6", and the accepted text is the weekday's number; any other text is an invalid-weekday error naming it |
| Schedules.RecurrenceOf | src/app/js/main/schedule.ts:221-328 | a missing end date is an error before anything else; an unknown type code is unsupported; `until` is the end date at the end time, or at the start of that day; `day` is daily; a `week` or ordinal type with a truthy `week` is weekly on that weekday, or monthly on that ordinal and weekday, and an invalid weekday text fails naming the text; `month` with a truthy `day` is monthly on that month day; the exclusions are localized in order |
| Schedules.RecurrenceKinds | src/app/js/main/schedule.ts:244-325 | `day` and `weekday` always succeed, `weekday` with the five working days; a week-based type without a `week` is unsupported; `month` succeeds iff `day` is present; an ordinal type carries its ordinal and weekday |
| Schedules.RecurrenceFromRepeatInfo | src/app/js/main/schedule.ts:221-328 | the step-by-step parser returns what `RecurrenceOf` specifies, values and errors alike |
| Schedules.ScheduleOf | src/app/js/main/schedule.ts:420-492 | no `when` and no repeat information is an error; a success keeps id, version, description and the raw event, uses `detail` or "" as summary, splits the members, and takes visibility, status and transparency from the code tables; a repeated event fails iff its recurrence does, with the same error, and otherwise carries that recurrence and starts and ends on its start date at the given times or at the start of the day; a one-off event with several `date` or `datetime` blocks, a `datetime` without a truthy `end`, or neither block fails with its own error; otherwise its start and end are the localized timestamps, all-day for `date` and timed for `datetime`, the end in the end zone |
| Schedules.FromGaroonSchedule | src/app/js/main/schedule.ts:420-492 | the step-by-step parser returns what `ScheduleOf` specifies, values and errors alike |
| Schedules.GoogleDateTimeOf | src/app/js/main/schedule.ts:361-367 | the time zone is kept; a timed value is the ISO instant of its moment; an all-day value is its YYYY-MM-DD date |
| Schedules.RuleLineWellOrdered | src/app/js/main/schedule.ts:380-400 | the RRULE parts start with FREQ, follow the canonical order and never hold both COUNT and UNTIL |
| Schedules.GoogleRecurrenceLines | src/app/js/main/schedule.ts:377-407 | no recurrence gives no lines; otherwise one RRULE line followed by exactly one EXDATE line per exclusion, in order |
| Schedules.PushRuleParts | src/app/js/main/schedule.ts:380-400 | the pushes into `rrules` produce the rendering of the specified parts |
| Schedules.GoogleRecurrenceFromRecurrence | src/app/js/main/schedule.ts:377-407 | the generator returns the specified lines |
| Schedules.Compare | src/app/js/main/schedule.ts:147-155 | always 0, since neither relational test on two objects holds |
| Schedules.ToGoogleCalendarEvent | src/app/js/main/schedule.ts:494-514 | id, summary, span, visibility, status, transparency and recurrence come from the schedule; the source links to the event page; a description only when non-empty; a location iff there are locations, and then the display names joined with ", " (a single location's name alone) |
| ScheduleExamples.DailyEventParsed | src/test/js/main/schedule.test.ts:19-100 | the recurring event of the test parses to the expected schedule |
| ScheduleExamples.DailyRuleLine | src/test/js/main/schedule.test.ts:171 | that schedule's rule line is `RRULE:FREQ=DAILY;UNTIL=20170910` |
| ScheduleExamples.DailyExdates | src/test/js/main/schedule.test.ts:172-173 | its two exclusions are written with the zone and the start's time of day |
| ScheduleExamples.DailyScheduleToGoogle | src/test/js/main/schedule.test.ts:102-178 | the whole Google event of the test schedule: lines, source, description, no location |
| RecurrenceRules.WorkingDaysValue | src/app/js/main/schedule/recurrence/index.ts:24-30 | the working days render as `MO,TU,WE,TH,FR` |
| RecurrenceRules.AssembleWellOrdered | src/app/js/main/schedule/recurrence/index.ts:176-197 | any assembly with at most one BYDAY part is well ordered |
| RecurrenceRules.MapExdatesWithZone | src/app/js/main/schedule/recurrence/index.ts:199-206 | the mapping loop yields the specified EXDATE lines with TZID |
| RecurrenceRules.MapExdatesWithoutZone | src/app/js/main/schedule/recurrence.ts:217-221 | the mapping loop yields the specified EXDATE lines without TZID |
| RecurrenceClasses.NewDaily | src/app/js/main/schedule/recurrence/daily.ts:5-6 | a daily recurrence with no interval or count that keeps `until` and the exclusions unchanged |
| RecurrenceClasses.NewWeekly | src/app/js/main/schedule/recurrence/weekly.ts:5-9 | a weekly recurrence that keeps `until`, the exclusions and `byday` unchanged |
| RecurrenceClasses.NewMonthly | src/app/js/main/schedule/recurrence/monthly.ts:8-17 | a monthly recurrence that keeps the ordinal and the month day as given, both or neither allowed |
| RecurrenceClasses.WeekdayFromNumber | src/app/js/main/schedule/recurrence/index.ts:128-146 | accepts exactly the numbers 0..6, each naming its weekday; anything else is an invalid-weekday error |
| RecurrenceClasses.RecurrenceOf | src/app/js/main/schedule/recurrence/index.ts:36-126 | a missing end date is an error first; an unknown type is unsupported; a success has the pattern of its type, the `until` of the end date and time, and the exclusions in order |
| RecurrenceClasses.WeekdayCodes | src/app/js/main/schedule/recurrence/index.ts:72-118 | a numeric week of 0 is falsy and so unsupported; a non-empty text week is rejected; weeks 1..6 succeed |
| RecurrenceClasses.RecurrenceFromRepeatInfo | src/app/js/main/schedule/recurrence/index.ts:36-126 | the step-by-step factory returns what `RecurrenceOf` specifies |
| RecurrenceClasses.RuleLineWellOrdered | src/app/js/main/schedule/recurrence/index.ts:176-197 | FREQ first, canonical order, never COUNT and UNTIL together |
| RecurrenceClasses.GoogleRecurrenceLines | src/app/js/main/schedule/recurrence/index.ts:176-208 | one RRULE line followed by one EXDATE line with TZID per exclusion |
| RecurrenceClasses.DailyRule | src/app/js/main/schedule/recurrence/daily.ts:6 | a daily recurrence's rule is FREQ=DAILY and UNTIL only |
| RecurrenceClasses.WeeklyRule | src/app/js/main/schedule/recurrence/index.ts:187-189 | a weekly recurrence always has BYDAY with its days joined by commas |
| RecurrenceClasses.MonthlyRule | src/app/js/main/schedule/recurrence/index.ts:189-197 | monthly BYDAY is `<ordinal><code>` when an ordinal is set, else the month day itself, else absent |
| RecurrenceClasses.PushRuleParts | src/app/js/main/schedule/recurrence/index.ts:177-197 | the pushes produce the rendering of the specified parts |
| RecurrenceClasses.GoogleRecurrenceFromRecurrence | src/app/js/main/schedule/recurrence/index.ts:176-208 | the generator returns the specified lines |
| ScheduleRecurrence.WeekdayFromScalar | src/app/js/main/schedule/recurrence.ts:132-157 | accepts the numbers 0..6 and the texts "0".."6", each naming its weekday; anything else is an invalid-weekday error |
| ScheduleRecurrence.RecurrenceOf | src/app/js/main/schedule/recurrence.ts:33-130 | a missing end date is an error first; an unknown type is unsupported; a success is consistent with its pattern, with `until` and the exclusions as given |
| ScheduleRecurrence.WeekdayCodes | src/app/js/main/schedule/recurrence.ts:69-127 | the number 0 is falsy and unsupported while the text "0" is Sunday; a truthy unparseable week is an invalid-weekday error |
| ScheduleRecurrence.RecurrenceFromRepeatInfo | src/app/js/main/schedule/recurrence.ts:33-130 | the step-by-step factory returns what `RecurrenceOf` specifies |
| ScheduleRecurrence.RuleLineWellOrdered | src/app/js/main/schedule/recurrence.ts:196-215 | FREQ first, canonical order, never COUNT and UNTIL together |
| ScheduleRecurrence.ByDayPresence | src/app/js/main/schedule/recurrence.ts:207-215 | for a consistent value: daily has no BYDAY; weekly has its days; monthly has the ordinal form, else the month day |
| ScheduleRecurrence.WorkingDayRule | src/app/js/main/schedule/recurrence.ts:70-71 | the `weekday` recurrence renders as WEEKLY with UNTIL and `BYDAY=MO,TU,WE,TH,FR` |
| ScheduleRecurrence.GoogleRecurrenceLines | src/app/js/main/schedule/recurrence.ts:196-222 | one RRULE line followed by one EXDATE line without TZID per exclusion |
| ScheduleRecurrence.PushRuleParts | src/app/js/main/schedule/recurrence.ts:197-215 | the pushes produce the rendering of the specified parts |
| ScheduleRecurrence.GoogleRecurrenceFromRecurrence | src/app/js/main/schedule/recurrence.ts:196-222 | the generator returns the specified lines |
| Generations.WeekdayParsersAgree | src/app/js/main/schedule/recurrence.ts:132-157 | the text parser of `schedule.ts` fed with `toString()` and the number-or-text parser accept the same inputs with the same weekdays, and reject the same inputs naming the same text |
| Generations.NumberParserRefines | src/app/js/main/schedule/recurrence/index.ts:128-146 | the number-only parser agrees with the number-or-text parser where it accepts, and rejects exactly the text forms |
| Generations.FunctionAndClassFactoriesAgree | src/app/js/main/schedule/recurrence.ts:33-130 | the `schedule.ts` factory and the single-class factory succeed on the same inputs, fail with the same error and produce the same RRULE parts and exclusions |
| Generations.HierarchyRefinesSingleClass | src/app/js/main/schedule/recurrence/index.ts:36-126 | wherever the class hierarchy succeeds, the single class gives the same value; it fails alone only on a text week |
| Generations.HierarchyRuleParts | src/app/js/main/schedule/recurrence/index.ts:176-197 | for a valid hierarchy value both generations emit the same RRULE parts |
| Generations.ExdateSpellings | src/app/js/main/schedule/recurrence.ts:217-221 | the two EXDATE spellings carry the same value, one with and one without the TZID prefix |
| Generations.ZonedAndZonelessLines | src/app/js/main/schedule/recurrence/index.ts:199-208 | the two generations emit the same number of lines and the same RRULE line, and differ only in the EXDATE spelling |
| Stores.Upsert | src/app/js/main/store.ts:47 | the written id holds the new document, no other id changes, and only that id is added |
| Stores.GetAfterSet | src/app/js/main/store.ts:25-57 | reading back a written id yields the deserialized serialization, or the deserializer's error |
| Stores.SetLeavesOthers | src/app/js/main/store.ts:47 | a write leaves every other id's read unchanged |
| Stores.SetOverwrites | src/app/js/main/store.ts:47 | a later write of the same id replaces the earlier one |
| Stores.GetMissing | src/app/js/main/store.ts:33-39 | an id with no document reads as `undefined`, not as an error |
| Stores.Store.Get | src/app/js/main/store.ts:25-43 | a datastore failure rejects with the find message; otherwise the lookup with the given or default deserializer, `undefined` when missing |
| Stores.Store.Set | src/app/js/main/store.ts:45-57 | a datastore failure rejects with the update message and changes nothing; otherwise an upsert keyed by the entity's id |
| Stores.Store.Remove | src/app/js/main/synchronizer.ts:200 | the document with the id is gone and every other document stays |
| UserStores.SerializeUser | src/app/js/main/user-store.ts:28-30 | the document's id is the user's id and its payload the user |
| UserStores.DeserializeUser | src/app/js/main/user-store.ts:32-34 | rebuilds the user from the document's id and the payload's name and email |
| UserStores.UserRoundTrip | src/app/js/main/user-store.ts:28-34 | serializing then deserializing gives the user back |
| UserStores.GetByIds | src/app/js/main/user-store.ts:24-26 | always the empty map |
| UserStores.NewUserStore | src/app/js/main/user-store.ts:16-34 | a fresh empty store that keys users by id and uses the user serializer and deserializer |
| UserStores.UserStoreScenario | src/test/js/main/user-store.test.ts:5-18 | nothing is found before a write; after a write the user is found; a second write of the same id replaces it |
| ScheduleStores.SerializeDateTime | src/app/js/main/schedule-store.ts:62-70 | the key is the dashed date, a space and the hour:minute clock, with 00:00 and 24:00 standing in for an all-day start and end |
| ScheduleStores.KeyDropsSeconds | src/app/js/main/schedule-store.ts:64 | two timed values that differ only in seconds get the same key |
| ScheduleStores.SameDayKeyOrder | src/app/js/main/schedule-store.ts:62-70 | on one day, keys compare as their clocks do |
| ScheduleStores.AllDayKeysBracketTheDay | src/app/js/main/schedule-store.ts:65-69 | the all-day start key sorts at or before every timed key of the day and the all-day end key after all of them |
| ScheduleStores.EarlierDayKeyOrder | src/app/js/main/schedule-store.ts:62-70 | a key of an earlier day sorts before every key of a later day (four-digit years) |
| ScheduleStores.Serialize | src/app/js/main/schedule-store.ts:53-58 | the document holds the id, the raw event, the start key with start=true and the end key with start=false |
| ScheduleStores.StoreRoundTrip | src/app/js/main/schedule-store.ts:53-60 | a stored schedule parses back to itself |
| ScheduleStores.Selected | src/app/js/main/schedule-store.ts:36-41 | exactly the documents whose start key is at least the query's start key OR whose end key is below the query's end key |
| ScheduleStores.TestKeyOrder | src/app/js/main/schedule-store.ts:62-70 | keys on the test day compare as their clocks do, seconds ignored |
| ScheduleStores.RangeQueryOnTestSchedules | src/app/js/main/schedule-store.ts:28-41 | the query as written selects all six test schedules, while the overlap the comment describes would select only three of them |
| ScheduleStores.ScheduleStore.GetSchedules | src/app/js/main/schedule-store.ts:33-51 | a datastore failure rejects; otherwise one schedule per selected document, each document once; a document that fails to parse rejects the query |
| SyncStatus.InitialState | src/app/js/main/sync.ts:130-133 | idle, result unknown, progress 0 of 1, never synced |
| SyncStatus.Reduce | src/app/js/main/sync.ts:138-175 | each action's effect: the phase starts reset the result; the phase ends change only the result; progress replaces only the progress; `EndSync` returns to idle with no progress and moves the last sync time to now only on success; other actions change nothing |
| SyncStatus.LastSyncTimeOnSuccessOnly | src/app/js/main/sync.ts:156-171 | the last sync time moves exactly on a successful `EndSync` |
| SyncStatus.RunAppend | src/app/js/main/sync.ts:138-175 | dispatching two sequences in turn is dispatching their concatenation |
| SyncStatus.LastSyncTimeKept | src/app/js/main/sync.ts:156-171 | without a successful `EndSync`, the last sync time survives any sequence of actions |
| SyncStatus.ProgressOnly | src/app/js/main/sync.ts:154-155 | progress updates leave phase, result and last sync time alone, ending at the last progress sent |
| SyncStatus.CompletedCycleEnds | src/app/js/main/sync.ts:138-175 | a completed cycle leaves the status idle and successful, with no progress and synced at now |
| SyncStatus.FailedFetchEnds | src/app/js/main/sync.ts:140-171 | a failed fetch leaves the status idle and failed, keeping the last sync time |
| GoogleErrors.CreateErrorResponse | src/app/js/main/google.ts:144-165 | 404 is NotFound and 409 AlreadyExists, both ways; message and payload pass through; an `undefined` error throws |
| GoogleErrors.ReasonRoundTrip | src/app/js/main/google.ts:144-165 | every reason is reached by some code |
| GoogleErrors.MissingCodeIsUnknown | src/app/js/main/google.ts:160-164 | an error without a code is Unknown |
| CalendarService.InsertResult | src/app/js/main/google.ts:167-189 | an insert succeeds iff the call is served and the id is new, adding the event; otherwise nothing changes and a rejection is AlreadyExists iff the call was served |
| CalendarService.UpdateResult | src/app/js/main/google.ts:191-214 | an update succeeds iff the call is served and the id exists, replacing the event; otherwise nothing changes and a rejection is NotFound iff the call was served |
| CalendarService.DeleteResult | src/app/js/main/google.ts:216-234 | a delete succeeds iff the call is served and the id exists, removing the event; otherwise nothing changes |
| CalendarService.FallbacksSucceed | src/app/js/main/synchronizer.ts:98-110 | after a served insert fails, the update succeeds; after a served update fails, the insert succeeds |
| CalendarService.GoogleCalendar.InsertEvent | src/app/js/main/google.ts:167-189 | the call answers and changes the calendar as `InsertResult` specifies |
| CalendarService.GoogleCalendar.UpdateEvent | src/app/js/main/google.ts:191-214 | the call answers and changes the calendar as `UpdateResult` specifies |
| CalendarService.GoogleCalendar.DeleteEvent | src/app/js/main/google.ts:216-234 | the call answers and changes the calendar as `DeleteResult` specifies |
| GaroonSource.GaroonClient.GetEvents | src/app/js/main/synchronizer.ts:217-218 | each range call receives the next queued reply and touches no by-id reply |
| GaroonSource.GaroonClient.GetEventsByIds | src/app/js/main/synchronizer.ts:245-246 | each by-id call receives the next queued reply and touches no range reply |
| Synchronization.EventsOf | src/app/js/main/synchronizer.ts:220-228 | an absent block gives no events, a single one a one-element list, an array itself |
| Synchronization.ParseAll | src/app/js/main/synchronizer.ts:222 | on success one schedule per event in order; on failure the error of the first event that does not parse |
| Synchronization.FetchFirstUsable | src/app/js/main/synchronizer.ts:212-239 | a fetch makes at most `maxRetry + 1` calls and succeeds iff one of their replies is usable, yielding the first usable one |
| Synchronization.FetchByIds | src/app/js/main/synchronizer.ts:241-244 | an empty id list resolves to no schedules without calling the server |
| Synchronization.OnlyInStore | src/app/js/main/synchronizer.ts:183-186 | exactly the cached ids not among the fetched ids |
| Synchronization.Find | src/app/js/main/synchronizer.ts:190 | the first refetched schedule with the id, or none iff there is none |
| Synchronization.ReconcileOne | src/app/js/main/synchronizer.ts:189-202 | a stopped phase stays stopped and the counters never change |
| Synchronization.ReconcileOneEffect | src/app/js/main/synchronizer.ts:189-202 | a refetched schedule updates the calendar and then the cache; a vanished one is deleted from both; a 404 stops the phase |
| Synchronization.ReconcileTouchesOnlyItsIds | src/app/js/main/synchronizer.ts:176-205 | the only-in-cache phase changes neither calendar nor cache at any id it was not given, nor the counters |
| Synchronization.ReconcileStops | src/app/js/main/synchronizer.ts:188-203 | once the phase rejects, later ids change nothing |
| Synchronization.GoogleWrite | src/app/js/main/synchronizer.ts:89-150 | the calendar changes only on an add or a modify, to the new event; a schedule is skipped iff its cached version is current; a failing service never adds or modifies |
| Synchronization.Count | src/app/js/main/synchronizer.ts:94-141 | each write bumps exactly its own counter, and a failed write none |
| Synchronization.SyncOne | src/app/js/main/synchronizer.ts:82-157 | a stopped cycle stays stopped; each schedule adds at most one to the counters |
| Synchronization.CacheFollowsCalendar | src/app/js/main/synchronizer.ts:85-153 | the cache is written iff the calendar was added to or modified, a failing write stops the cycle, and a current version is skipped with no calendar call |
| Synchronization.WritesSelfHeal | src/app/js/main/synchronizer.ts:89-150 | with a served calendar, an out-of-date schedule always ends up in the calendar, by insert or by the fallback |
| Synchronization.HaltedStays | src/app/js/main/synchronizer.ts:82-157 | once a schedule's step rejects, the later schedules change nothing |
| Synchronization.TallyBound | src/app/js/main/synchronizer.ts:82-157 | the counters grow by at most the number of schedules |
| Synchronization.QueryOutcome | src/app/js/main/synchronizer.ts:52-55 | the range query succeeds iff the datastore works and every selected document parses; then the cached schedules are every selected document parsed, each exactly once, in the order the datastore yielded them |
| Synchronization.StatusStore.Dispatch | src/app/js/main/synchronizer.ts:58 | a dispatch applies the status reducer |
| Synchronization.Synchronizer.FetchGaroonSchedules | src/app/js/main/synchronizer.ts:212-239 | the fetch with retries answers as `Fetch` specifies and consumes only range replies |
| Synchronization.Synchronizer.FetchGaroonSchedulesByIds | src/app/js/main/synchronizer.ts:241-269 | the by-id fetch answers as `FetchByIds` specifies and consumes only by-id replies |
| Synchronization.Synchronizer.ReconcileId | src/app/js/main/synchronizer.ts:189-202 | one id of the only-in-cache phase changes calendar and cache as `ReconcileOne` specifies |
| Synchronization.Synchronizer.ReconcileIds | src/app/js/main/synchronizer.ts:188-203 | settling the ids one after the other changes calendar and cache as `ReconcileAll` specifies, leaves the counters alone, and reports whether no id rejected |
| Synchronization.Synchronizer.SyncSchedulesNotInStore | src/app/js/main/synchronizer.ts:176-205 | the whole phase changes calendar and cache as `ReconcilePhase` specifies, consuming one by-id reply when there are ids |
| Synchronization.Synchronizer.WriteCalendar | src/app/js/main/synchronizer.ts:89-150 | the calendar calls for one schedule, with their fallbacks, as `GoogleWrite` specifies |
| Synchronization.Synchronizer.SyncSchedule | src/app/js/main/synchronizer.ts:83-156 | one schedule's read, calendar write and cache write, as `SyncOne` specifies |
| Synchronization.Synchronizer.SyncFetched | src/app/js/main/synchronizer.ts:82-157 | the ordered walk changes calendar and cache as `SyncAll` specifies, reporting progress (i, n) after each schedule |
| Synchronization.Synchronizer.FinishCycle | src/app/js/main/synchronizer.ts:158-160 | the closing dispatches complete the cycle's action sequence |
| Synchronization.Synchronizer.Cycle | src/app/js/main/synchronizer.ts:56-167 | a failed fetch dispatches start and failure and touches nothing; otherwise calendar and cache end as the two phases specify, and the status either completes the cycle or ends failed with the last sync time kept |
| Synchronization.Synchronizer.Sync | src/app/js/main/synchronizer.ts:41-168 | no URL throws before anything happens; a failing range query throws and changes nothing; otherwise the cached schedules are every selected document once, and the cycle runs on them as above, returning whether it completed |
| GaroonForm.InitialState | src/app/js/renderer/modules/garoon.ts:179-185 | nothing verified, every field empty without error, the event page URL not valid |
| GaroonForm.IsValidEventPageUrl | src/app/js/renderer/modules/garoon.ts:187-198 | valid iff `url.parse` returns, invalid iff it throws a URIError, and otherwise throws naming the argument |
| GaroonForm.Checked | src/app/js/renderer/modules/garoon.ts:211-213 | a field shows the "not entered" text iff its value is empty, and keeps its value |
| GaroonForm.Reduce | src/app/js/renderer/modules/garoon.ts:203-226 | throws only on an event page URL that `url.parse` rejects without a URIError; validation marks exactly the empty fields with the missing-field text and changes nothing else; each setter changes only its own value; verification start keeps the result |
| GaroonForm.ValidatedSubmittable | src/app/js/renderer/modules/garoon.ts:89-94 | after validation the account may be submitted iff all three fields are filled in |
| GaroonForm.ValidateIdempotent | src/app/js/renderer/modules/garoon.ts:209-214 | validating twice is validating once |
| GaroonForm.EditThenValidate | src/app/js/renderer/modules/garoon.ts:209-218 | after editing the user name, validation flags it iff it is empty and reports the other fields as before |
| GaroonForm.SettersCommute | src/app/js/renderer/modules/garoon.ts:215-220 | the field setters act on separate fields, so their order does not matter |
| GaroonForm.VerifyCycle | src/app/js/renderer/modules/garoon.ts:205-208 | a started and ended verification leaves exactly the reported outcome |
| GoogleCalendarForm.InitialState | src/app/js/renderer/modules/google-calendar.ts:211-216 | nothing verified or loaded, no code, no calendars, none chosen |
| GoogleCalendarForm.Reduce | src/app/js/renderer/modules/google-calendar.ts:221-240 | each action's effect: setting the list clears the choice; selecting sets it; the starts keep the previous result; the ends set state and result; other actions change nothing |
| GoogleCalendarForm.RunSnoc | src/app/js/renderer/modules/google-calendar.ts:221-240 | dispatching one more action applies the reducer to the state so far |
| GoogleCalendarForm.SelectionAfterRun | src/app/js/renderer/modules/google-calendar.ts:229-232 | after any actions the chosen calendar is the last selection not followed by a reload, else the earlier choice |
| GoogleCalendarForm.ReloadClearsSelection | src/app/js/renderer/modules/google-calendar.ts:229-232 | a reload after a selection drops it; a selection after a reload keeps the new list |
| GoogleCalendarForm.LoadCycle | src/app/js/renderer/modules/google-calendar.ts:150-158 | a successful load leaves the new list, no choice, and loading finished successfully |
| Tutorial.InitialState | src/app/js/renderer/modules/tutorial.ts:72-75 | the first page, synchronizing afterwards |
| Tutorial.Reduce | src/app/js/renderer/modules/tutorial.ts:86-97 | `Next` and `Prev` move one page without bounds; the start-sync action changes only the flag; others change nothing |
| Tutorial.PrevUndoesNext | src/app/js/renderer/modules/tutorial.ts:88-91 | `Prev` undoes `Next` and `Next` undoes `Prev` |
| Tutorial.PrevFromFirstPage | src/app/js/renderer/modules/tutorial.ts:90-91 | nothing keeps the index from going below the first page |
| Tutorial.StepIndexCounts | src/app/js/renderer/modules/tutorial.ts:86-97 | after any actions the index has moved by the `Next`s less the `Prev`s |
| Tutorial.InitialAppState | src/app/js/renderer/modules/tutorial.ts:99-103 | the root state starts from each module's initial state |
| Tutorial.ReduceApp | src/app/js/renderer/modules/tutorial.ts:99-103 | an action of one module changes only that module's slice, as its reducer says; the root throws iff the account reducer throws |
| Tutorial.OnlyEventPageUrlThrows | src/app/js/renderer/modules/tutorial.ts:99-103 | the root reducer throws only while setting an event page URL that `url.parse` rejects without a URIError |
| Tutorial.Submission | src/app/js/renderer/modules/tutorial.ts:54-58 | `submit` sends the chosen calendar and the start-sync flag |
| Tutorial.PagingKeepsSubmission | src/app/js/renderer/modules/tutorial.ts:88-91 | moving through the pages never changes what will be submitted |
| Packager.IndexFrom | src/util/packager.ts:16 | the first occurrence at or after the start, or -1 iff there is none |
| Packager.IndexOf | src/util/packager.ts:16 | the first occurrence, or -1 iff there is none |
| Packager.IndexOfZeroIsPrefix | src/util/packager.ts:16 | `indexOf` is 0 iff the needle is a prefix |
| Packager.IgnoresExactly | src/util/packager.ts:4-17 | a path is left out iff it is non-empty, not `/node_modules`, and starts with no needed prefix |
| Packager.KeptPaths | src/util/packager.ts:4-17 | the empty path, `/node_modules` and every path under a needed prefix are kept |
| Packager.PrefixNotDirectory | src/util/packager.ts:16 | the test is a plain string prefix, so `/distX` and `/node_modules/garoonfoo` are kept |
| Packager.OtherPathsIgnored | src/util/packager.ts:4-17 | `/node_modules/other` and `/README.md` are left out |

## Left out

- Logging, the tray icon, the windows, the IPC channels and every React component are not part of this model. So are the renderer thunks (`submit`, `loadWritableCalendars`, `submitEventPageUrl`), except for what the lemmas above say about the action sequences they dispatch.
- The groupware transport (src/app/js/main/garoon.ts) is not part of this model. Its replies are queued inputs.
- The Google API client (OAuth, googleapis callbacks) is not part of this model. The calendar is a map, and the failing calls are a set of ids.
- moment-timezone is foreign code. Localising a timestamp and printing an instant are parameters. Dates are printed assuming four-digit years.
- The clock is a parameter. The thirty-day sync period is the `periodEnd` parameter rather than `now` plus thirty days.
- The nedb file datastore is a map. Its failures are inputs: whether the range query fails, and which ids cannot be read or written.
- `calendarId` is unused: the model has one calendar.
- Synchronization.Synchronizer.SyncSchedulesNotInStore: `Promise.all` starts every update and delete at once. The model runs them one after another and stops at the first rejection, so it does not capture calls that are still in flight after a rejection.
- Synchronization.ReconcileOneEffect: `scheduleStore.remove` is used by src/app/js/main/synchronizer.ts:200 but is defined in no file of the repository; the model takes it to delete the document.
- Schedules.ToGoogleCalendarEvent: the event page link is built with `new URL("?event=" + id, base)`. The model writes it as the base followed by `?event=` and the id, so it does not capture a base that already has a query or a fragment.
- ScheduleStores.SerializeDateTime: the `SS` token of moment is fractional seconds, not seconds. For a whole-second clock it prints `00`, and the model writes that constant.
- Stores.Store.Get: the source calls the deserializer inside the datastore callback, so a deserializer that throws leaves the returned promise unsettled behind an uncaught exception. The model gives that read the rejection `Unreadable` instead.
- Generations.WeekdayParsersAgree: the two parsers throw different message texts (`Invalid input <day>` and `Invalid input <day> of recurrence day.`). The shared `InvalidWeekday` error keeps only the input, so the lemma does not compare the messages.
- ScheduleStores.ScheduleStore.GetSchedules: a deserializer that throws inside the datastore callback leaves the source's promise unsettled behind an uncaught exception. The model gives it a rejection carrying the parse error. The documents are yielded in an unspecified order.
- GaroonForm.IsValidEventPageUrl: what Node's `url.parse` accepts is foreign. The model takes its outcome for each string as a parameter.
- Schedules.Compare: the model states the value the code computes, not the chronological order its name suggests.
- The doc-comment of `getSchedules` (src/app/js/main/schedule-store.ts:28-31) and its test (src/test/js/main/schedule-store.test.ts:161) describe an interval overlap. The code selects with an OR of two comparisons. The model follows the code; `RangeQueryOnTestSchedules` shows both readings on the test data.
- In `schedule.ts` a monthly month-day is emitted as `BYDAY=<n>` rather than `BYMONTHDAY`. The hierarchy's comment at src/app/js/main/schedule/recurrence/index.ts:171 says `BYMONTHDAY`. The model follows the code.
- The class hierarchy's weekday parser accepts only numbers, so a text `week` (which the older generations accept) is rejected there. The model follows the code.
