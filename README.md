# Familybot core, modelled in Dafny

Familybot is a React admin dashboard for a school and family assistant bot.
Behind its pages sit in-memory mock services. These keep module-level arrays
of students, events, family members, campaigns and AI roles, and update them
in place. This project models two parts of it:

- **The mock service tables.** Each of `schoolService`, `familyService`,
  `broadcastService` and `aiRolesService` is a `class` holding `seq` fields.
  Every method that changes state ensures that the new state equals a
  module-level function of the old state. The function's own contract says
  which entry changes, that list lengths and every other entry are kept,
  and what an unknown id does.
- **The `api.ts` record builders.** These are pure functions over the
  `types/index.ts` shapes, built from a partial record plus defaults.
  Nothing in `api.ts` is ever stored.
- **Business rules inside components**, as pure functions:
  - the actionable-item overdue rule and its Start/Complete buttons;
  - the goal card's milestone count and progress bump;
  - the member page's local merge after an update, and its overview slices;
  - fee flattening, filtering and totals;
  - event filtering, type de-duplication and RSVP tallies;
  - the calendar month grid, the events of a cell, and cell truncation.
  `getAllFees` and `getDaysInMonth` push in loops, so they are methods with
  loop invariants, proved equal to a specification function.

Conventions:

- `Partial<T>` is a patch datatype whose fields are `Option`s.
- `{...old, ...patch}` is a field-wise merge that takes each field from the
  patch when it is present, otherwise from the old record.
- A thrown `Error` is `Err(message)` of a `Result`, and `null` is `None`.
- Generated ids (`Date.now()`) and ISO time stamps are parameters.
- The artificial delays are dropped, so every call is one atomic step.
- `Array.find` / `findIndex` is `FirstIndex`, which finds the first index
  holding the id.
- A `for..of` scan that stops at the first list holding an id is
  `FirstHolding`.

Modules, one per source file:

- `SchoolTypes`, `FamilyTypes`, `BroadcastTypes`, `AIRoleTypes`, `ApiTypes`
  hold the shapes of `src/types/*.ts`.
- `Common` holds Option/Result, first-match search, subsequences and the
  `filter` every page uses.
- `Text` holds ASCII lower-casing and `includes`.
- The rest are `SchoolService`, `FamilyService`, `BroadcastService`,
  `AIRolesService`, `Api`, `ActionableItemCard`, `GoalCard`,
  `FamilyMemberDetailPage`, `FeesPage`, `EventsPage` and `CalendarView`.

## Model

| member | source | states |
|---|---|---|
| SchoolService.SchoolStore.GetStudent | src/services/schoolService.ts:43-46 | null exactly when no student has the id; otherwise the first student with that id |
| SchoolService.AttendanceMarked | src/services/schoolService.ts:55-59 | for a known student, the record is appended to the end of the first matching student's attendance and that student's status becomes the record's status; every other student and the list length are kept; an unknown id changes nobody |
| SchoolService.SchoolStore.MarkAttendance | src/services/schoolService.ts:48-62 | returns the input record with the new id even for an unknown student; students become AttendanceMarked of the old students; events are untouched |
| SchoolService.HomeworkAddedToAll | src/services/schoolService.ts:72-74 | every student's homework list grows by exactly the one assignment at its end, and nothing else changes |
| SchoolService.SchoolStore.CreateHomework | src/services/schoolService.ts:64-77 | the `forEach` loop leaves the students equal to HomeworkAddedToAll with the returned assignment (input plus new id); events are untouched |
| SchoolService.HomeworkUpdate | src/services/schoolService.ts:79-89 | throws 'Homework not found' and changes nothing exactly when no student holds the id; otherwise only the first holding student (in list order) changes, only at its first entry with the id, which becomes the field-wise merge, and that merge is returned |
| SchoolService.SchoolStore.UpdateHomework | src/services/schoolService.ts:81-88 | the `for..of` scan yields exactly HomeworkUpdate's new students and outcome; events are untouched |
| SchoolService.UpdateAfterCreateTouchesFirstStudentOnly | src/services/schoolService.ts:64-89 | an assignment created for all students and then updated is changed in the first student's list only; the second student keeps the original entry |
| SchoolService.SchoolStore.CreateEvent | src/services/schoolService.ts:96-106 | exactly one event is appended, the input with the new id and an empty participant list, and it is returned; students are untouched |
| SchoolService.RsvpUpserted | src/services/schoolService.ts:112-124 | an upsert keyed by studentId: an existing participant (the first one with that student) gets only status and rsvpDate changed and the length is kept; otherwise exactly one participant is appended |
| SchoolService.RsvpRecorded | src/services/schoolService.ts:110-125 | only the first event with the id has its participants upserted, whatever its requiresRsvp flag and status; other events are kept; an unknown event id changes nothing |
| SchoolService.RsvpKeepsStudentsUnique | src/services/schoolService.ts:112-124 | studentIds that are distinct among an event's participants stay distinct after an RSVP |
| SchoolService.SchoolStore.RsvpEvent | src/services/schoolService.ts:108-126 | events become RsvpRecorded of the old events; students are untouched |
| FamilyService.FamilyStore.GetFamilyMember | src/services/familyService.ts:83-86 | null exactly when no member has the id; otherwise the first member with that id |
| FamilyService.MemberUpdate | src/services/familyService.ts:88-96 | throws 'Family member not found' and changes nothing exactly when the id is unknown; otherwise the first matching member is replaced by the field-wise merge and returned, and the length and every other member are kept |
| FamilyService.FamilyStore.UpdateFamilyMember | src/services/familyService.ts:88-96 | new members and outcome are exactly MemberUpdate's |
| FamilyService.GoalAppended | src/services/familyService.ts:107-110 | the goal is appended to the first matching member's goals; every other member and the length are kept; an unknown member changes nothing |
| FamilyService.FamilyStore.CreateGoal | src/services/familyService.ts:98-113 | returns the input with the new id and `now` as both stamps, even for an unknown member; members become GoalAppended with it |
| FamilyService.GoalUpdate | src/services/familyService.ts:115-129 | throws 'Goal not found' and changes nothing exactly when no member holds the id; otherwise only the first holding member's first goal with the id changes, to the merge stamped with `now` (the stamp wins over the patch), and that goal is returned |
| FamilyService.FamilyStore.UpdateGoal | src/services/familyService.ts:117-128 | the `for..of` scan yields exactly GoalUpdate's new members and outcome |
| FamilyService.ItemAppended | src/services/familyService.ts:140-143 | the item is appended to the first matching member's actionable items; every other member and the length are kept; an unknown member changes nothing |
| FamilyService.FamilyStore.CreateActionableItem | src/services/familyService.ts:131-146 | returns the input with the new id and `now` as both stamps; members become ItemAppended with it |
| FamilyService.ItemUpdate | src/services/familyService.ts:148-162 | the same first-match merge-and-stamp rule on actionable items, with 'Actionable item not found' exactly when no member holds the id |
| FamilyService.FamilyStore.UpdateActionableItem | src/services/familyService.ts:150-161 | the `for..of` scan yields exactly ItemUpdate's new members and outcome |
| FamilyService.CalendarEventAppended | src/services/familyService.ts:171-174 | the event is appended to the first matching member's calendar; every other member and the length are kept; an unknown member changes nothing |
| FamilyService.FamilyStore.CreateCalendarEvent | src/services/familyService.ts:164-177 | returns the input with the new id; members become CalendarEventAppended with it |
| BroadcastService.BroadcastStore.GetCampaign | src/services/broadcastService.ts:64-67 | null exactly when no campaign has the id; otherwise the first campaign with that id |
| BroadcastService.BroadcastStore.GetCampaignAnalytics | src/services/broadcastService.ts:125-129 | null exactly when GetCampaign is null; otherwise that campaign's analytics |
| BroadcastService.BroadcastStore.CreateCampaign | src/services/broadcastService.ts:69-92 | exactly one campaign is appended and returned; it keeps every caller field, status included (no forced 'draft'); every analytics counter and rate is zero and the timeline is empty; templates are untouched |
| BroadcastService.BroadcastStore.CreateTemplate | src/services/broadcastService.ts:99-110 | exactly one template is appended and returned; it keeps every caller field, `isApproved` included; campaigns are untouched |
| BroadcastService.SendingMarked | src/services/broadcastService.ts:114-117 | the first campaign with the id becomes 'sending' whatever its status or template approval; nothing else changes; an unknown id changes nothing |
| BroadcastService.BroadcastStore.SendCampaign | src/services/broadcastService.ts:112-123 | campaigns become SendingMarked of the old ones; a completion is scheduled exactly when the id is known, and it is for the first campaign with the id |
| BroadcastService.SendCompleted | src/services/broadcastService.ts:118-121 | the captured campaign becomes 'sent' with the completion stamp and nothing else changes |
| BroadcastService.BroadcastStore.CompleteSend | src/services/broadcastService.ts:118-121 | campaigns become SendCompleted of the old ones; templates are untouched |
| BroadcastService.SendLeavesAnalyticsAlone | src/services/broadcastService.ts:112-123 | both steps of a send on a known id leave that campaign 'sent' with the stamp and its analytics exactly as before, and every other campaign untouched |
| AIRolesService.AIRoleStore.GetAIRole | src/services/aiRolesService.ts:120-123 | null exactly when no role has the id; otherwise the first role with that id |
| AIRolesService.RoleUpdate | src/services/aiRolesService.ts:125-133 | throws 'AI Role not found' and changes nothing exactly when the id is unknown; otherwise only the first matching role becomes the field-wise merge, which is returned |
| AIRolesService.AIRoleStore.UpdateAIRole | src/services/aiRolesService.ts:125-133 | new roles and outcome are exactly RoleUpdate's |
| AIRolesService.FindProfessionals | src/services/aiRolesService.ts:135-138 | always the empty list |
| AIRolesService.CreateTask | src/services/aiRolesService.ts:140-148 | the input task with only its id and creation stamp replaced |
| AIRolesService.MakeAIDecision | src/services/aiRolesService.ts:150-161 | echoes the task id; always 'autonomous' at confidence 85 with the alternatives find_professional and escalate |
| AIRolesService.DecisionIgnoresContext | src/services/aiRolesService.ts:150-161 | two calls that differ only in the context give the same decision |
| Api.GetDefaultPermissions | src/services/api.ts:520-528 | the wildcard exactly for 'admin' (and then only it); 4, 3 and 2 permissions for teacher, parent and student; the empty list exactly for any other string |
| Api.CreateUser | src/services/api.ts:92-106 | always 'active'; the role defaults to parent; the permissions are GetDefaultPermissions of that same role and never empty; name and phone default to '' |
| Api.UpdateUser | src/services/api.ts:108-113 | succeeds exactly for the ids 1, 2 and 3 of the mock users, otherwise throws 'User not found'; on success it is the merge of the first user with the id (and the mock users are constants, so nothing is written) |
| Api.EmptyUserUpdateIsLookup | src/services/api.ts:108-113 | updating a known user with an empty patch returns that user unchanged |
| Api.CreateBroadcastTemplate | src/services/api.ts:190-202 | always 'pending'; language defaults to en, category to general, variables to [] |
| Api.CreateBroadcastCampaign | src/services/api.ts:224-239 | always 'draft' with sent, delivered, read and failed all 0, no schedule or send time, and recipients defaulting to [] |
| Api.CreateHomework | src/services/api.ts:309-323 | always 'active' with no submissions; text fields default to '' |
| Api.CreateEvent | src/services/api.ts:354-369 | no attendees; type defaults to meeting; RSVP is on exactly when the caller says true; the creator is user 1 |
| Api.UpdateFamilyRole | src/services/api.ts:414-420 | succeeds exactly for the ids nanny and tutor, otherwise throws 'Role not found'; only `config` changes, its keys are the union, the argument's values win and the others are kept |
| Api.UpdateBotSettings | src/services/api.ts:494-498 | each top-level section named in the argument replaces the default's whole; the others are the defaults of getBotSettings |
| ActionableItemCard.OfferedActions | src/components/family/ActionableItemCard.tsx:78-93 | Start exactly for a pending item, Complete exactly for an in-progress one, at most one button, none for completed or overdue |
| ActionableItemCard.StatusRequest | src/components/family/ActionableItemCard.tsx:33-35 | the request names the item's own id and a patch holding the target status and no other field |
| ActionableItemCard.PressAdvances | src/components/family/ActionableItemCard.tsx:78-93 | a shown button changes only the status, one step along pending, in-progress, completed |
| ActionableItemCard.PressesAreBounded | src/components/family/ActionableItemCard.tsx:78-93 | any run of presses on shown buttons has at most two from pending, one from in-progress and none otherwise, and ends at the last press's target status |
| ActionableItemCard.IsOverdue | src/components/family/ActionableItemCard.tsx:31 | the overdue rule: a due date is present, lies strictly before the current time, and the item is not completed; its consequences are the lemmas below |
| ActionableItemCard.CompletedIsNeverOverdue | src/components/family/ActionableItemCard.tsx:31 | a completed item is never overdue |
| ActionableItemCard.NoDueDateIsNeverOverdue | src/components/family/ActionableItemCard.tsx:31 | an item with no due date is never overdue, whatever its status |
| ActionableItemCard.OverdueStaysOverdue | src/components/family/ActionableItemCard.tsx:31 | an overdue item stays overdue at every later time |
| ActionableItemCard.CompleteClearsOverdue | src/components/family/ActionableItemCard.tsx:31-35 | after pressing Complete the item is not overdue at any time |
| GoalCard.CompletedMilestones | src/components/family/GoalCard.tsx:11-12 | never more than the milestone total; equal to it exactly when all are completed, and zero exactly when none is |
| GoalCard.BumpedProgress | src/components/family/GoalCard.tsx:99 | `Math.min(progress + 10, 100)`; its cap, step and monotonicity are the Bump lemmas |
| GoalCard.ProgressRequest | src/components/family/GoalCard.tsx:99 | the request names the goal's own id and a patch holding the bumped progress and no other field |
| GoalCard.BumpIsCapped | src/components/family/GoalCard.tsx:99 | the requested progress never exceeds 100 |
| GoalCard.BumpAddsTen | src/components/family/GoalCard.tsx:99 | up to 90 the request is exactly ten more |
| GoalCard.BumpSaturates | src/components/family/GoalCard.tsx:99 | from 90 on the request is 100, so a second click asks for 100 again |
| GoalCard.BumpNeverLowers | src/components/family/GoalCard.tsx:99 | within 0..100 the request never goes below the current progress |
| GoalCard.RepeatedClicks | src/components/family/GoalCard.tsx:99 | n clicks, each merged into the goal, change only the progress, to min(p + 10n, 100) |
| FamilyMemberDetailPage.MergeGoalsById | src/pages/FamilyMemberDetailPage.tsx:38-40 | length and order kept; every goal with the id (not only the first) merged with the updates; every other goal unchanged |
| FamilyMemberDetailPage.MergeItemsById | src/pages/FamilyMemberDetailPage.tsx:52-54 | the same on actionable items |
| FamilyMemberDetailPage.HandleGoalUpdate | src/pages/FamilyMemberDetailPage.tsx:34-46 | when the service call throws, or no member is loaded, the page is unchanged; otherwise only the goal list changes, to MergeGoalsById |
| FamilyMemberDetailPage.HandleItemUpdate | src/pages/FamilyMemberDetailPage.tsx:48-60 | the same on the actionable items |
| FamilyMemberDetailPage.PageGoalsMatchStore | src/pages/FamilyMemberDetailPage.tsx:34-46 | in the value model, where the page's member is separate from the store, for the member the service updates with distinct goal ids the page's goals agree with the stored ones except the edited goal's `updatedAt` |
| FamilyMemberDetailPage.PageItemsMatchStore | src/pages/FamilyMemberDetailPage.tsx:48-60 | the same agreement for actionable items, in the same value model |
| FamilyMemberDetailPage.RecentGoals | src/pages/FamilyMemberDetailPage.tsx:154 | the first min(3, n) goals, in order |
| FamilyMemberDetailPage.PendingItems | src/pages/FamilyMemberDetailPage.tsx:164 | an order-preserving subsequence of the items holding every pending item and only those, each as many times as in the input |
| FamilyMemberDetailPage.PendingTasks | src/pages/FamilyMemberDetailPage.tsx:164 | at most 3 items, all pending, a prefix of the pending items, and all of them when fewer than 3 are shown |
| FeesPage.StudentRows | src/pages/FeesPage.tsx:52-58 | one row per fee of the student, in fee order, each the fee plus the student's name and grade |
| FeesPage.GetAllFees | src/pages/FeesPage.tsx:49-61 | the nested loops produce exactly the flattened list |
| FeesPage.FlattenLength | src/pages/FeesPage.tsx:49-61 | one row per (student, fee) pair |
| FeesPage.FlattenIndex | src/pages/FeesPage.tsx:49-61 | fee j of student i sits right after the fees of the students before i, as that fee plus student i's name and grade |
| Common.Filter | src/pages/FeesPage.tsx:63-68 | `filter` with any test: an order-preserving subsequence that holds every entry passing the test and only those, each passing value exactly as many times as in the input |
| Common.FilterKeepsAll | src/pages/FeesPage.tsx:63-68 | when every entry passes the test, the filter returns the list unchanged |
| Text.Lower | src/pages/FeesPage.tsx:64-65 | same length; each ASCII capital lowered, every other character kept |
| Text.Includes | src/pages/FeesPage.tsx:64-65 | `String.prototype.includes` as a left-to-right scan of start positions; its meaning is IncludesIff |
| Text.IncludesIff | src/pages/FeesPage.tsx:64-65 | the left-to-right scan answers yes exactly when the term occurs at some position of the text |
| Text.EmptyTermMatches | src/pages/FeesPage.tsx:64-65 | the empty search term occurs in every text |
| FeesPage.MatchesFee | src/pages/FeesPage.tsx:63-68 | the row test: the lower-cased term occurs in the lower-cased student name or fee type, and the status is the chosen one or the filter is 'all' |
| FeesPage.FilteredFees | src/pages/FeesPage.tsx:63-68 | an order-preserving subsequence holding every row that matches the search and status, and only those, each matching row as many times as in the input (so equal rows are all summed) |
| FeesPage.EmptySearchMatches | src/pages/FeesPage.tsx:64-66 | the empty search term matches every row under status 'all' |
| FeesPage.FilterAllKeepsEverything | src/pages/FeesPage.tsx:63-68 | with status 'all' and an empty search every row is kept |
| FeesPage.StatusFilterKeepsOnlyThatStatus | src/pages/FeesPage.tsx:66 | with one status chosen, every kept row has it |
| FeesPage.TotalAmount | src/pages/FeesPage.tsx:70 | the sum of the amounts of the filtered rows, each row counted once per occurrence |
| FeesPage.PaidAmount | src/pages/FeesPage.tsx:71-73 | the sum of the amounts of the filtered rows whose status is 'paid' |
| FeesPage.Outstanding | src/pages/FeesPage.tsx:124 | total minus paid is the sum over rows not marked 'paid', partial ones at their full amount |
| FeesPage.OutstandingIsUnpaid | src/pages/FeesPage.tsx:70-73 | the total is the paid sum plus the sum over the other rows |
| FeesPage.CollectedWithinTotal | src/pages/FeesPage.tsx:70-73 | with non-negative amounts, collected is between 0 and the total, and outstanding is never negative |
| EventsPage.MatchesEvent | src/pages/EventsPage.tsx:72-77 | the event test: the lower-cased term occurs in the lower-cased title or description, and the type is the chosen one or the filter is 'all' |
| EventsPage.FilteredEvents | src/pages/EventsPage.tsx:72-77 | an order-preserving subsequence holding every event that matches the search and type, and only those, each as many times as in the input |
| EventsPage.AllTypesExcludesNothing | src/pages/EventsPage.tsx:75 | with type 'all' an event matches exactly when the search matches it |
| EventsPage.OnlyTypeKeepsThatType | src/pages/EventsPage.tsx:75 | with one type chosen, every kept event has that type |
| EventsPage.Distinct | src/pages/EventsPage.tsx:79 | no value twice, and exactly the values of the input |
| EventsPage.DistinctKeepsFirstOccurrenceOrder | src/pages/EventsPage.tsx:79 | the distinct values come in the order of their first occurrence |
| EventsPage.EventTypes | src/pages/EventsPage.tsx:79 | each type that occurs among the events, once, and no other |
| EventsPage.CountStatus | src/pages/EventsPage.tsx:119-121 | a count never above the number of participants |
| EventsPage.TalliesPartitionParticipants | src/pages/EventsPage.tsx:119-121 | the five status counts add up to the participant count, so Yes + No + Pending never exceeds it |
| EventsPage.RsvpSummary | src/pages/EventsPage.tsx:119-162 | the tallies are shown exactly for an event that requires RSVPs; they count confirmed, declined and invited, and sum to at most the participant count |
| EventsPage.NewEventDraft | src/pages/EventsPage.tsx:33-44 | the Create Event payload is a draft academic event that requires RSVPs, aimed at parents and students, with no capacity |
| EventsPage.NewDraftShowsEmptyTallies | src/pages/EventsPage.tsx:31-49 | the event the service stores from that payload shows an RSVP box with all tallies zero |
| CalendarView.MonthGrid | src/components/family/CalendarView.tsx:14-35 | the grid `getDaysInMonth` builds: `startingDayOfWeek` empty cells, then the days 1..daysInMonth; its shape is MonthGridShape |
| CalendarView.GetDaysInMonth | src/components/family/CalendarView.tsx:14-35 | the two counting loops produce exactly MonthGrid |
| CalendarView.MonthGridShape | src/components/family/CalendarView.tsx:22-34 | start + days cells; the first `start` empty; the rest the days 1..daysInMonth of that month, ascending, each exactly once |
| CalendarView.MonthGridDaysDistinct | src/components/family/CalendarView.tsx:30-32 | no two cells hold the same day |
| CalendarView.EventsForDate | src/components/family/CalendarView.tsx:37-43 | an empty cell has no events; otherwise an order-preserving subsequence of exactly the events starting on that day, each as many times as in the input |
| CalendarView.EventInAtMostOneCell | src/components/family/CalendarView.tsx:37-43 | an event listed in cells a and b of one month grid has a == b, so it appears in at most one cell: the one holding its start day |
| CalendarView.DisplayCell | src/components/family/CalendarView.tsx:144-161 | at most 2 events shown, a prefix of the day's events; '+n more' exactly when there are more than 2, with n the count minus 2; otherwise all are shown |

## Left out

- Delays, `setTimeout` waits and async ordering: every service call is one atomic step. The two-second completion of `sendCampaign` is the separate step `CompleteSend`.
- Ids from `Date.now()` and stamps from `new Date()` are parameters, so id uniqueness is not claimed. Two calls in the same millisecond would collide.
- Api.CreateUser: the source reads the clock twice, for `lastSeen` and `createdAt`. The model uses one `now` for both.
- Api.GetDefaultPermissions: a role string naming an inherited object key (such as "constructor") returns a non-array in JavaScript. The model returns [] for every unknown string.
- Text.Lower: only ASCII letters are lower-cased. JavaScript's full Unicode case mapping is not modelled.
- Time zones and date parsing. A calendar day is a local civil date. The weekday of the first of the month and the month's length are inputs to `GetDaysInMonth`, not read from `Date`. An item's due date is an integer timestamp, with an absent or unparsable date as `None`.
- Aliasing of live objects. `getStudent`, `getFamilyMember`, `getCampaign` and `getAIRole` hand out the stored object, and a later in-place write would be visible through it. The model returns values. `createHomework` pushes one shared object into every student. No operation mutates that object: `updateHomework` replaces the slot. So values capture its behaviour.
- The member page's copy of the member is a value separate from the store's.
- FamilyMemberDetailPage.HandleGoalUpdate: the page's member is a value, so the page never shows the store's `updatedAt`. In the program, the first update after loading does show it: `getFamilyMember` hands out the store's own member, so the page maps over the store's goal array after `updateGoal` has stamped the edited goal. Only later updates, after the page has swapped in its own array, leave the page's stamp stale.
- FamilyMemberDetailPage.HandleItemUpdate: the same holds for actionable items, where `updateActionableItem` stamps the store's own array on the first update after loading.
- Untyped records are narrowed. A member's `preferences` (`Record<string, any>`) is a map from strings to strings. A family role's `config` (`Record<string, any>`) maps strings to four kinds of value: string, number, boolean and string list. Nested objects and other JSON values are not modelled.
- Patches cannot hold an explicit `undefined`. A field named with `undefined` in a JavaScript spread would overwrite the old value.
- Floating-point fields (campaign rates, ratings, the AI temperature) are Dafny `real`s that the model stores and never computes with. Fee amounts and goal progress are integers.
- `translateText` and `transcribeAudio` return fixed strings and are outside this model. The list getters (`getUsers`, `getStudents`, `getSchoolEvents`, `getTemplates` and the like) only return a stored list. The api's other mock readers return fixed data.
- JSX rendering, colour and icon pickers, routing, form state, and the search boxes of the other pages.
- The `createEvent` payload's end date is two hours after its start date. The model takes both dates as inputs.
