# Gracie Barra academy assistant — a Dafny model

This project models the core of an AI assistant for a martial-arts academy. The back end answers calls,
SMS and WhatsApp messages. It identifies the caller in the CRM and picks a persona for them. It also
retrieves knowledge-base passages by cosine similarity and checks and books the calendar. Finally it
reminds students of appointments, sweeps absent students for retention outreach, answers stock questions
about the Pro Shop, and dispatches tool calls coming from the ElevenLabs voice agent. The browser front
end is a set of React screens:
- the landing/auth/onboarding/dashboard shell (`App`);
- the three-step onboarding wizard;
- the sign-in/sign-up form;
- the Meta campaign manager with its create-campaign dialog;
- the inventory dashboard;
- the student and lead lists.

Each source file is one Dafny module. The main choices:
- **Firestore collections** (`users`, `appointments`, `interactions`, `knowledge_base`, `inventory`) become
  `seq` fields of classes (`UserStore`, `CalendarStore`, `MessagingService`, `KnowledgeStore`,
  `InventoryStore`). Their methods reassign those fields. Store order stands for query order.
- **React state** becomes a class with one field per `useState`. Each handler is a method that states the
  whole new state and keeps the screen's invariant (`Valid()`).
- **Pure computations** (filters, totals, prompt selection, response shapes) become functions. Lemmas
  state what the source promises about them.
- **Loops of the source** (`generateDaySlots`, the day loop of `checkAvailability`, `cosineSimilarity`,
  the scoring loop of `queryKnowledgeBase`, `getLowStockItems`, the batch indexing flow, the reminder and
  retention sweeps) are methods with loop invariants. Each is proved equal to a specification function,
  and lemmas about that function carry the source's promises.
- **Outside services become parameters**:
  - the clock (`now`);
  - generated document ids;
  - the embedder;
  - the LLM;
  - Twilio message sids;
  - the Meta API results;
  - date-fns formatting and ISO parsing.

  A missing value (`None`) stands for the service failing or, for `parseISO`, for an Invalid Date. Firestore reads
  are not parameters: they are total functions of the stored collections, so a read that throws is not modelled.
- **Times** are integer milliseconds since the epoch, and the local time zone is taken as UTC.
  `getDay()` is `(day + 4) % 7`, because 1970-01-01 was a Thursday.
- **Cosine similarity** has no square root in Dafny. The score is kept as the triple `(dot, |a|², |b|²)`.
  Ordering and the `> 0.6` threshold are decided on the signed square `dot·|dot| / (|a|²·|b|²)`, which
  is strictly monotone in the cosine. `VectorSimilarity.KeyOrderIsValueOrder` and
  `VectorSimilarity.RelevantIffAboveThreshold` prove the two rules agree.

## Model

| member | source | states |
|---|---|---|
| VectorSimilarity.DotSymmetric | backend/src/services/rag.service.ts:125-129 | the accumulated dot product does not depend on the order of its arguments |
| VectorSimilarity.SquaredNormNonNegative | backend/src/services/rag.service.ts:125-129 | the accumulated squared norm is never negative |
| VectorSimilarity.Similarity | backend/src/services/rag.service.ts:116-138 | vectors of different length, or with a zero norm, score 0; every other score is a well-formed cosine |
| VectorSimilarity.CosineSimilarity | backend/src/services/rag.service.ts:116-138 | the single loop accumulating dot product and both norms yields exactly `Similarity(a, b)` |
| VectorSimilarity.KeyOfValue | backend/src/services/rag.service.ts:131-135 | the comparison key of a score whose cosine is c equals c·abs(c) |
| VectorSimilarity.SignedSquareMonotone | backend/src/services/rag.service.ts:69 | c·abs(c) is strictly increasing, so ordering by key is ordering by cosine |
| VectorSimilarity.RelevantIffAboveThreshold | backend/src/services/rag.service.ts:58 | a result is kept exactly when its cosine is above 0.6 |
| VectorSimilarity.ThresholdExcluded | backend/src/services/rag.service.ts:58 | a cosine of exactly 0.6 is not kept (the comparison is strict) |
| VectorSimilarity.KeyOrderIsValueOrder | backend/src/services/rag.service.ts:69 | for any two scores, key order and cosine order agree in both directions |
| VectorSimilarity.SimilaritySymmetric | backend/src/services/rag.service.ts:116-138 | similarity(a, b) and similarity(b, a) rank equally |
| VectorSimilarity.SelfSimilarityIsOne | backend/src/services/rag.service.ts:116-138 | a non-zero vector has cosine 1 with itself |
| VectorSimilarity.CauchySchwarz | backend/src/services/rag.service.ts:125-137 | the accumulated sums satisfy dot² ≤ normA·normB |
| VectorSimilarity.SimilarityBounded | backend/src/services/rag.service.ts:116-138 | every similarity the source computes lies in [-1, 1], and so does its key |
| VectorSimilarity.ValueBounded | backend/src/services/rag.service.ts:137 | dot / (sqrt(normA)·sqrt(normB)) lies in [-1, 1] whenever dot² ≤ normA·normB |
| KnowledgeBase.Candidates | backend/src/services/rag.service.ts:52-65 | every candidate is relevant and reports its own score as `relevanceScore`; there are at most as many candidates as documents |
| KnowledgeBase.CandidatesFromSnapshot | backend/src/services/rag.service.ts:52-65 | every candidate comes from a snapshot document that has an embedding and passes the threshold |
| KnowledgeBase.CandidatesCount | backend/src/services/rag.service.ts:52-65 | the number of candidates is the number of embedded documents above the threshold |
| KnowledgeBase.CandidatesStep | backend/src/services/rag.service.ts:51-66 | one loop iteration appends the scored document exactly when it is kept |
| KnowledgeBase.ScoreSnapshot | backend/src/services/rag.service.ts:51-66 | the scoring loop returns exactly the candidate list, in snapshot order |
| KnowledgeBase.Insert | backend/src/services/rag.service.ts:69 | inserting into the ranking adds exactly one element and keeps the others |
| KnowledgeBase.SortDesc | backend/src/services/rag.service.ts:69 | the sort is a permutation of its input |
| KnowledgeBase.InsertAllAtLeast | backend/src/services/rag.service.ts:69 | inserting keeps a lower bound that all elements share |
| KnowledgeBase.InsertSorted | backend/src/services/rag.service.ts:69 | inserting into a descending list keeps it descending |
| KnowledgeBase.SortDescSorted | backend/src/services/rag.service.ts:69 | the sort yields a descending permutation of its input |
| KnowledgeBase.InsertKeepsTies | backend/src/services/rag.service.ts:69 | inserting places the new result after the earlier results of the same score and changes no other tie class |
| KnowledgeBase.SortDescStable | backend/src/services/rag.service.ts:69 | the sort is stable, as JavaScript's `sort` is: results of equal score keep the order of the search loop |
| KnowledgeBase.Strip | backend/src/services/rag.service.ts:72 | dropping the internal score keeps each result, in order |
| KnowledgeBase.CutFacts | backend/src/services/rag.service.ts:69-72 | the top-k cut of the sorted candidates is a sorted prefix of relevant results |
| KnowledgeBase.QueryRelevantAndSorted | backend/src/services/rag.service.ts:36-73 | every returned result is above the threshold, and results come in non-increasing score order |
| KnowledgeBase.QueryCount | backend/src/services/rag.service.ts:36-73 | a query returns min(topK, number of relevant documents in the category) results, and at most 3 by default |
| KnowledgeBase.QueryFromEmbeddedDocuments | backend/src/services/rag.service.ts:41-65 | every result comes from an embedded document of the requested category that passes the threshold |
| KnowledgeBase.QueryIsTopK | backend/src/services/rag.service.ts:69-72 | the results are the first k of the sorted candidates, and none left out scores higher than one returned |
| KnowledgeBase.IndexOfId | backend/src/services/rag.service.ts:85 | finds the first document with the given id, or -1 iff there is none |
| KnowledgeBase.KnowledgeStore.IndexDocument | backend/src/services/rag.service.ts:23-34 | an embedder failure or a throwing `add` stores nothing and fails; otherwise the embedded document is appended under the new id |
| KnowledgeBase.KnowledgeStore.QueryKnowledgeBase | backend/src/services/rag.service.ts:36-73 | an embedder failure is an error; otherwise the answer is the query specification over the stored documents |
| KnowledgeBase.KnowledgeStore.UpdateDocument | backend/src/services/rag.service.ts:75-86 | an unknown id, an embedder failure or a throwing `update` fails and changes nothing; otherwise only that document is patched, re-embedded when its content changed |
| KnowledgeBase.PatchEmbedding | backend/src/services/rag.service.ts:76-83 | a patch keeps the id, keeps the creation time unless it carries one, stamps the update time; new non-empty content is embedded afresh over any patched embedding, otherwise the patch's embedding (if any) is taken |
| RagQueryTool.ProjectAll | backend/src/tools/knowledge/rag-query.ts:47-51 | each service result is projected to content, source and score, in order |
| RagQueryTool.Shape | backend/src/tools/knowledge/rag-query.ts:31-52 | `found` holds iff there are results; the not-found answer carries no results; otherwise the answer quotes the best result |
| RagQueryTool.FoundIffRelevantDocument | backend/src/tools/knowledge/rag-query.ts:24-54 | for a non-negative topK, the tool reports found iff some document of the category passes the threshold, and the first result scores highest |
| IndexDocuments.ReportCounts | backend/src/flows/rag/index-documents.ts:24-47 | total = number of inputs = indexed + failed, and one id is listed per indexed document |
| IndexDocuments.ReportListsAdded | backend/src/flows/rag/index-documents.ts:33-42 | the listed ids are exactly those of the documents added to the store, in order |
| IndexDocuments.ReportExtremes | backend/src/flows/rag/index-documents.ts:31-47 | when every embedding and every `add` succeeds nothing fails and every issued id is listed in order; when each input's embedding or `add` fails nothing is indexed |
| IndexDocuments.IndexDocumentsFlow | backend/src/flows/rag/index-documents.ts:23-49 | the loop's report and the documents it appends match the specification, an input counting as failed when its embedding or its `add` fails |
| Calendar.HourSlots | backend/src/services/calendar.service.ts:163-181 | one slot per business hour between the opening and closing hour |
| Calendar.HourSlotsIndex | backend/src/services/calendar.service.ts:163-181 | slot k starts at hour opening + k |
| Calendar.GenerateDaySlots | backend/src/services/calendar.service.ts:152-183 | the hour loop produces exactly the day's slots |
| Calendar.DaySlotsShape | backend/src/services/calendar.service.ts:13-17 | Sunday has 2 slots, Saturday 6 and weekdays 15; each is an open hour-long slot inside that day, starting at opening hour + k |
| Calendar.AsWrittenImpliesHalfOpen | backend/src/services/calendar.service.ts:33-37 | whatever the strict overlap test blocks, the half-open overlap test blocks too |
| Calendar.AsWrittenMissesExactMatch | backend/src/services/calendar.service.ts:33-37 | an appointment exactly filling the slot is not seen by the strict test, but overlaps it |
| Calendar.MarkAll | backend/src/services/calendar.service.ts:26-45 | every slot of the day is kept in place and marked available iff no booking blocks it |
| Calendar.DayFacts | backend/src/services/calendar.service.ts:152-183 | a day's slots are chronological, hour-long and inside that day |
| Calendar.MarkAllFacts | backend/src/services/calendar.service.ts:26-45 | marking keeps the day's slots chronological and inside the day |
| Calendar.ChronologicalConcat | backend/src/services/calendar.service.ts:22-48 | appending a later day's slots keeps the list chronological |
| Calendar.SweepChronological | backend/src/services/calendar.service.ts:22-48 | the day loop emits chronological slots, each marked against the bookings |
| Calendar.JoinDay | backend/src/services/calendar.service.ts:22-48 | one day's marked slots followed by later days stay chronological and marked |
| Calendar.AvailableSlotsShape | backend/src/services/calendar.service.ts:8-51 | every returned slot is open, typed with the requested type, an hour long and not blocked; the list is chronological |
| Calendar.FilterChronological | backend/src/services/calendar.service.ts:50 | filtering the open slots keeps chronological order |
| Calendar.HalfOpenNeverOffersBookedTime | backend/src/services/calendar.service.ts:19-50 | with the corrected overlap test, no returned slot overlaps a booked appointment of the range |
| Calendar.SingleDaySearch | backend/src/services/calendar.service.ts:22-48 | a search from midnight to end of day returns only slots of that day |
| Calendar.SweepOneDay | backend/src/services/calendar.service.ts:22-48 | a range shorter than a day runs the loop exactly once |
| Calendar.AsWrittenOffersBookedSlot | backend/src/services/calendar.service.ts:33-37 | an hour-long appointment at the start of a business hour leaves that slot offered as written, and removed with the corrected test |
| Calendar.AsWrittenListsWholeDay | backend/src/services/calendar.service.ts:19-50 | with only a one-hour appointment on the hour, the strict search over its day returns every business-hour slot of that day, the booked one included |
| Calendar.MarkDay | backend/src/services/calendar.service.ts:26-45 | the inner loop marks every slot of the day |
| Calendar.SweepDays | backend/src/services/calendar.service.ts:22-48 | the day loop produces the specified marked slots |
| Calendar.CalendarStore.CheckAvailability | backend/src/services/calendar.service.ts:8-51 | returns exactly the available slots of the specification over the stored appointments |
| Calendar.CalendarStore.BookAppointment | backend/src/services/calendar.service.ts:53-73 | appends the new scheduled appointment under the new id; a store failure changes nothing |
| Calendar.CalendarStore.MarkReminderSent | backend/src/services/calendar.service.ts:132-136 | sets `reminderSent` on that appointment only; an unknown id or a throwing `update` is an error and changes nothing |
| Calendar.IndexOfAppointment | backend/src/services/calendar.service.ts:132-136 | finds the first appointment with the id, or -1 iff there is none |
| Calendar.MarkedNotDueAgain | backend/src/services/calendar.service.ts:114-130 | once its reminder is marked sent, an appointment is not fetched for reminding again |
| Calendar.BookingIsSeen | backend/src/services/calendar.service.ts:53-150 | a booked appointment whose date parses is fetched by every search whose range holds its start, and under the half-open test withdraws every slot it intersects; it is due for a reminder iff it starts inside the window; one whose date does not parse is never fetched |
| CheckAvailabilityTool.DaysUntil | backend/src/tools/scheduling/check-availability.ts:42 | the offset to the target weekday is between 1 and 7 and lands on that weekday (`% 7 \|\| 7`) |
| CheckAvailabilityTool.FormatAll | backend/src/tools/scheduling/check-availability.ts:57-61 | each slot keeps its start and end and gets its display time, in order |
| CheckAvailabilityTool.CheckAvailability | backend/src/tools/scheduling/check-availability.ts:24-70 | the tool's answer, under either overlap test, is the specification over the stored appointments |
| CheckAvailabilityTool.ResultShape | backend/src/tools/scheduling/check-availability.ts:49-68 | under either overlap test, an unparsable date is an error; otherwise the answer lists the first min(10, n) available slots of the whole days searched, in order, with a count message iff some slot is free |
| CheckAvailabilityTool.NextWeekdayResolves | backend/src/tools/scheduling/check-availability.ts:32-44 | "next <weekday>" resolves to that weekday 1 to 7 days ahead; on the same weekday it is a week later |
| CheckAvailabilityTool.NextWeekdayDate | backend/src/tools/scheduling/check-availability.ts:40-43 | adding `DaysUntil` days lands on the target weekday within the next seven days |
| CheckAvailabilityTool.NextWeekdayPhrase | backend/src/tools/scheduling/check-availability.ts:32-44 | a "next <weekday>" phrase takes the weekday branch, not the ISO parser |
| CheckAvailabilityTool.WeekdayIndexOfPhrase | backend/src/tools/scheduling/check-availability.ts:33-35 | stripping "next " and trimming recovers the weekday's index |
| CheckAvailabilityTool.DaysOfWeekDistinct | backend/src/tools/scheduling/check-availability.ts:33 | the weekday names are pairwise distinct |
| CheckAvailabilityTool.WeekdayNameTrimmed | backend/src/tools/scheduling/check-availability.ts:34 | trimming leaves a weekday name unchanged |
| CheckAvailabilityTool.NoEndDateSearchesOneDay | backend/src/tools/scheduling/check-availability.ts:49-55 | without an end date only the start day is searched, in hour-long slots; under the half-open test no offered slot overlaps a booking of that day |
| CheckAvailabilityTool.RunToday | backend/src/tools/scheduling/check-availability.ts:29-55 | "today" in any letter case, with no end date, searches the current day only |
| CheckAvailabilityTool.AsWrittenToolOffersBookedSlot | backend/src/tools/scheduling/check-availability.ts:49-61 | as written, a one-hour appointment at the start of one of today's first ten slots leaves that very slot in the tool's answer for "today" |
| CheckAvailabilityTool.HalfOpenToolWithholdsBookedSlot | backend/src/tools/scheduling/check-availability.ts:49-61 | with the half-open test, the tool's answer for "today" never offers the hour of a scheduled one-hour appointment |
| BookAppointmentTool.Profile | backend/src/tools/scheduling/book-appointment.ts:35 | a profile is a stored user with that id; the student-profile lookup only returns students |
| BookAppointmentTool.OnlyFirstUnderscoreReplaced | backend/src/tools/scheduling/book-appointment.ts:38 | `replace('_', ' ')` changes only the first underscore |
| BookAppointmentTool.Failure | backend/src/tools/scheduling/book-appointment.ts:55-60 | a failure reports no success and no id, with the "Failed to book appointment: " message |
| BookAppointmentTool.BookAppointment | backend/src/tools/scheduling/book-appointment.ts:25-61 | stores the appointment under any issued id before the date is parsed, so an unparsable date leaves it stored and reports failure; texts the profile's phone and promotes a lead only after a parsed date; succeeds with the booked-for message iff every step, the lead's promotion included, succeeds |
| BookAppointmentTool.Confirm | backend/src/tools/scheduling/book-appointment.ts:40-48 | the SMS goes out only to a profile with a phone; a lead is promoted to intro_scheduled only after the SMS step succeeded; it succeeds iff the SMS step and, for a lead, the promotion's `update` succeed |
| BookAppointmentTool.AsWrittenLeadsAreNeverPromoted | backend/src/tools/scheduling/book-appointment.ts:35-48 | with `getStudentProfile`, a lead gets neither the SMS nor the promotion |
| BookAppointmentTool.CorrectedLookupPromotesLeads | backend/src/tools/scheduling/book-appointment.ts:35-48 | looking up any user texts the lead and promotes that lead only |
| AppointmentReminderFlow.Sweep | backend/src/flows/reminders/appointment-reminder.ts:39-100 | the sweep records one entry per due appointment |
| AppointmentReminderFlow.RemindOne | backend/src/flows/reminders/appointment-reminder.ts:40-96 | one iteration changes the stores and reports the status exactly as the specification says, a `markReminderSent` that throws after the send counting as failed |
| AppointmentReminderFlow.RemindNext | backend/src/flows/reminders/appointment-reminder.ts:39-100 | one iteration advances counters and entries as one step of the sweep |
| AppointmentReminderFlow.RemindAll | backend/src/flows/reminders/appointment-reminder.ts:39-100 | the loop ends in the sweep's final stores, counts and entries |
| AppointmentReminderFlow.AppointmentReminder | backend/src/flows/reminders/appointment-reminder.ts:29-103 | fetches the appointments due in the window (24 hours, SMS by default) and reports the sweep's counts and entries |
| AppointmentReminderFlow.SweepTally | backend/src/flows/reminders/appointment-reminder.ts:32-100 | sent + failed = number of due appointments, and sent counts the entries marked sent |
| AppointmentReminderFlow.SweepEntries | backend/src/flows/reminders/appointment-reminder.ts:44-85 | entry i carries the id, user, time and type of due appointment i |
| AppointmentReminderFlow.RemindSteps | backend/src/flows/reminders/appointment-reminder.ts:42-96 | no profile or phone, or a failed send, fails and changes nothing; a mark whose `update` throws fails and leaves the appointments unchanged; the appointment is marked only after send and log succeeded |
| AppointmentReminderFlow.AsWrittenLeadsAreNeverReminded | backend/src/flows/reminders/appointment-reminder.ts:40-53 | with `getStudentProfile`, a lead's appointment always fails and nothing is sent |
| AppointmentReminderFlow.CorrectedLookupRemindsLeads | backend/src/flows/reminders/appointment-reminder.ts:40-86 | looking up any user reminds a lead with a phone |
| AppointmentReminderFlow.SentRemindersStayMarked | backend/src/flows/reminders/appointment-reminder.ts:60-86 | every reminder reported sent is marked `reminderSent` in the store at the end of the sweep |
| AppointmentReminderFlow.SweepLast | backend/src/flows/reminders/appointment-reminder.ts:39-100 | the last iteration of the sweep acts on the stores the earlier ones left |
| AppointmentReminderFlow.SentIsMarked | backend/src/flows/reminders/appointment-reminder.ts:60-86 | a sent reminder marks its appointment |
| AppointmentReminderFlow.MarksPersist | backend/src/flows/reminders/appointment-reminder.ts:67 | later iterations never clear a reminder mark |
| Crm.NormalizePhone | backend/src/services/crm.service.ts:124-126 | the normalised phone holds only digits, and normalising it again changes nothing |
| Crm.FindByPhone | backend/src/services/crm.service.ts:8-21 | returns the first user with that phone, or nothing iff no user has it |
| Crm.IdentifyIgnoresFormatting | backend/src/services/crm.service.ts:7-22 | inserting non-digit separators into a phone number does not change who is identified |
| Crm.SeparatorVanishes | backend/src/services/crm.service.ts:124-126 | normalisation drops non-digit separators |
| Crm.FindById | backend/src/services/crm.service.ts:25-32 | finds a stored user with that id, or nothing iff there is none |
| Crm.StudentProfile | backend/src/services/crm.service.ts:24-42 | returns the user with that id iff it is an active or former student |
| Crm.NoProfileForNonStudents | backend/src/services/crm.service.ts:34-36 | with unique ids, a lead or prospect has no student profile |
| Crm.UniqueIdsDetermineUser | backend/src/services/crm.service.ts:25-32 | with unique ids, an id determines the stored user |
| Crm.NewLeadIsIdentified | backend/src/services/crm.service.ts:44-72 | after creating a lead for an unknown phone, any equally normalised phone identifies that lead |
| Crm.FirstMatchAtEnd | backend/src/services/crm.service.ts:8-21 | a user appended after no other match is the one found |
| Crm.MergeLaws | backend/src/services/crm.service.ts:74-79 | an update keeps id, phone and creation time, stamps the update time, and repeating it changes only that stamp |
| Crm.AbsenteeStudents | backend/src/services/crm.service.ts:81-96 | exactly the active students whose last attendance is before the cutoff (14 days by default) |
| Crm.AbsenteesShrinkWithThreshold | backend/src/services/crm.service.ts:81-96 | absent longer than a larger threshold implies absent longer than a smaller one |
| Crm.DelinquentStudents | backend/src/services/crm.service.ts:98-109 | exactly the active students whose payment is overdue |
| Crm.UserStore.CreateLead | backend/src/services/crm.service.ts:44-72 | a known phone returns the existing id and stores nothing; otherwise a new lead is appended and then identifiable |
| Crm.UserStore.UpdateUser | backend/src/services/crm.service.ts:74-79 | merges the patch into that user only; an unknown id or a throwing `update` is an error and changes nothing |
| Crm.IndexOfUser | backend/src/services/crm.service.ts:74-79 | finds the first user with that id, or -1 iff there is none |
| IdentifyUserTool.IdentifyUser | backend/src/tools/crm/identify-user.ts:25-49 | `found` iff the CRM identifies the phone; the summary copies id, name, type and email |
| IdentifyUserTool.NonStudentsHaveNoStudentFields | backend/src/tools/crm/identify-user.ts:27-45 | a lead or prospect is reported with no rank, attendance or payment status |
| IdentifyUserTool.FormattingDoesNotMatter | backend/src/tools/crm/identify-user.ts:25-49 | the tool's answer ignores non-digit separators in the phone |
| CreateLeadTool.CreateLead | backend/src/tools/crm/create-lead.ts:22-44 | a known phone reports the existing id and stores nothing; an unknown one appends the new lead and reports its id; a failed write stores nothing and reports failure with an empty id |
| Messaging.WhatsAppAddress | backend/src/services/messaging.service.ts:29-32 | the address carries the `whatsapp:` prefix exactly once |
| Messaging.WhatsAppAddressIdempotent | backend/src/services/messaging.service.ts:29-32 | prefixing twice is prefixing once |
| Messaging.TextOnAddresses | backend/src/services/messaging.service.ts:9-50 | SMS goes between the plain numbers; WhatsApp goes between prefixed numbers |
| Messaging.MessagingService.LogInteraction | backend/src/services/messaging.service.ts:66-69 | appends the record under the new id; a store failure changes nothing |
| Messaging.MessagingService.SendSms | backend/src/services/messaging.service.ts:9-26 | a Twilio failure sends and logs nothing; a sent SMS is logged as outbound SMS with its body |
| Messaging.MessagingService.SendWhatsApp | backend/src/services/messaging.service.ts:28-50 | as SendSms, between prefixed addresses, logged on the WhatsApp channel |
| Messaging.MessagingService.SendText | backend/src/services/messaging.service.ts:9-50 | sends on the chosen channel, as SendSms or SendWhatsApp |
| Messaging.MessagingService.MakeOutboundCall | backend/src/services/messaging.service.ts:71-89 | places a call pointing at the call-config URL and logs it as outbound voice |
| Messaging.InsertByTime | backend/src/services/messaging.service.ts:57 | inserting into the history adds exactly one entry |
| Messaging.SortNewestFirst | backend/src/services/messaging.service.ts:57 | the ordering is a permutation of the log |
| Messaging.InsertByTimeKeepsBound | backend/src/services/messaging.service.ts:57 | inserting keeps a lower bound on the timestamps |
| Messaging.InsertByTimeSorted | backend/src/services/messaging.service.ts:57 | inserting keeps the list newest first |
| Messaging.SortNewestFirstSorted | backend/src/services/messaging.service.ts:57 | the ordering is newest first |
| Messaging.HistoryWindow | backend/src/services/messaging.service.ts:52-64 | the history is the user's newest min(limit, n) interactions (10 by default), newest first, and none left out is newer |
| LogInteractionTool.LogInteraction | backend/src/tools/analytics/log-interaction.ts:23-48 | appends the record and reports its id; a store failure logs nothing and reports failure |
| CallConfigFlow.ProfileOfStoredUser | backend/src/flows/voice/generate-call-config.ts:48 | the student profile of a stored user is that user exactly when it is a student |
| CallConfigFlow.CallConfigTable | backend/src/flows/voice/generate-call-config.ts:29-125 | unknown callers get the new-caller prompt; students get collection, retention or member prompts by payment and purpose; others get sales |
| CallConfigFlow.PurposeOnlySteersStudents | backend/src/flows/voice/generate-call-config.ts:47-106 | for a known non-student, the requested purpose does not change the configuration |
| IncomingMessageFlow.HistoryLines | backend/src/flows/messaging/handle-incoming-message.ts:31-35 | one context line per history entry |
| IncomingMessageFlow.HandleIncomingMessage | backend/src/flows/messaging/handle-incoming-message.ts:28-86 | with no reply or a failed inbound log nothing is logged or sent; otherwise it logs the message inbound and sends the reply on the same channel |
| IncomingMessageFlow.HistoryShownOldestFirst | backend/src/flows/messaging/handle-incoming-message.ts:31-35 | the prompt shows at most the 5 newest interactions of the sender, oldest first |
| IncomingMessageFlow.LinesFollowReverse | backend/src/flows/messaging/handle-incoming-message.ts:33-35 | line i describes the i-th entry of the reversed history |
| IncomingMessageFlow.ReverseIsOldestFirst | backend/src/flows/messaging/handle-incoming-message.ts:34 | reversing a newest-first history makes it oldest first |
| IncomingMessageFlow.TextAndVoicePersonasAgree | backend/src/flows/messaging/handle-incoming-message.ts:37-43 | the text persona and the inbound voice persona pick the same kind of prompt for each caller type |
| RetentionSweepFlow.Sweep | backend/src/flows/retention/retention-sweep.ts:43-91 | one entry per contacted student |
| RetentionSweepFlow.ContactOne | backend/src/flows/retention/retention-sweep.ts:44-89 | one iteration changes the stores and reports the status as the specification says |
| RetentionSweepFlow.ContactNext | backend/src/flows/retention/retention-sweep.ts:43-91 | one iteration advances counters and entries as one step of the sweep |
| RetentionSweepFlow.ContactAll | backend/src/flows/retention/retention-sweep.ts:43-91 | the loop attempts every chosen student and ends in the sweep's stores and counts |
| RetentionSweepFlow.RetentionSweep | backend/src/flows/retention/retention-sweep.ts:28-94 | finds the absentees (14 days, SMS by default), caps them with `slice(0, maxContacts)` and reports the sweep |
| RetentionSweepFlow.SweepTally | backend/src/flows/retention/retention-sweep.ts:35-91 | successful + failed = attempted, and successful counts the successful entries |
| RetentionSweepFlow.SweepEntries | backend/src/flows/retention/retention-sweep.ts:71-88 | entry i names student i with the days since attendance and is never "skipped" |
| RetentionSweepFlow.SelectionBounds | backend/src/flows/retention/retention-sweep.ts:29-33 | the chosen students are a prefix of the absentees, all active students; 0 or no cap takes all; JavaScript's negative slice drops from the end |
| RetentionSweepFlow.WholeDaysAtLeast | backend/src/flows/retention/retention-sweep.ts:46-51 | a span longer than d days floors to at least d whole days |
| RetentionSweepFlow.ReportedAbsenceMeetsThreshold | backend/src/flows/retention/retention-sweep.ts:46-51 | every contacted student is reported absent for at least the threshold |
| RetentionSweepFlow.ContactEffects | backend/src/flows/retention/retention-sweep.ts:53-89 | voice outreach sends nothing and succeeds iff its log succeeds; a successful text adds one message to the student and two log records |
| RetentionSweepFlow.VoiceSweepSendsNothing | backend/src/flows/retention/retention-sweep.ts:53-55 | a voice sweep leaves the outbox untouched |
| Inventory.FirstMatching | backend/src/services/inventory.service.ts:38-40 | finds the first variant matching the given size and colour, or -1 when none does |
| Inventory.FirstNamed | backend/src/services/inventory.service.ts:16-26 | finds the first item with that name, or nothing iff there is none |
| Inventory.CheckStock | backend/src/services/inventory.service.ts:7-51 | unknown items have 0 stock; no filter sums all variants; otherwise the quantity of the first variant matching the size or colour, 0 when none does; available iff quantity > 0 |
| Inventory.PositiveTotal | backend/src/services/inventory.service.ts:30-32 | with non-negative quantities, the total is positive iff some variant is in stock |
| Inventory.FilterAllMatching | backend/src/services/inventory.service.ts:29-39 | with no size or colour every variant matches |
| Inventory.SumOfMatchesReportsAnyStock | backend/src/services/inventory.service.ts:38-50 | summing the matching variants reports availability iff some matching variant is in stock |
| Inventory.AsWrittenHidesStockOfOtherColors | backend/src/services/inventory.service.ts:38-50 | a gi asked for by size only is reported out of stock although another colour of that size is in stock |
| Inventory.VariantIndex | backend/src/services/inventory.service.ts:83-86 | finds the first variant of that size and colour, or -1 |
| Inventory.IndexOfItem | backend/src/services/inventory.service.ts:71-80 | finds the first item with that id, or -1 iff there is none |
| Inventory.Clamped | backend/src/services/inventory.service.ts:91 | the new quantity is old + change, floored at 0 |
| Inventory.TotalAfterReplace | backend/src/services/inventory.service.ts:89-95 | replacing one variant changes the total by the difference of their quantities |
| Inventory.InventoryStore.LowStockItems | backend/src/services/inventory.service.ts:53-68 | the loop collects exactly the low-stock items, in store order |
| Inventory.InventoryStore.UpdateStock | backend/src/services/inventory.service.ts:70-97 | an unknown item or variant, or a throwing `update`, is an error and changes nothing; otherwise only that variant's quantity changes, clamped at 0 |
| Inventory.AdjustedTotals | backend/src/services/inventory.service.ts:89-95 | the total moves by the change unless clamped; quantities stay non-negative; selling never clears a low-stock state |
| CheckStockTool.ToolAgreesWithInventory | backend/src/tools/inventory/check-stock.ts:23-63 | the tool reports the service's availability and quantity, with the item's price, sizes and colours when it exists |
| CheckStockTool.AsWrittenToolTurnsCustomerAway | backend/src/tools/inventory/check-stock.ts:34-62 | in the gi example, the tool says out of stock as written and in stock with the corrected rule |
| ElevenLabsWebhook.Lookup | backend/src/webhooks/elevenlabs.ts:43-67 | a tool name resolves only to the tool of that name |
| ElevenLabsWebhook.LookupInvertsToolName | backend/src/webhooks/elevenlabs.ts:43-67 | every tool is reached by its own name |
| ElevenLabsWebhook.ToolNamesDistinct | backend/src/webhooks/elevenlabs.ts:43-67 | no two tools share a name |
| ElevenLabsWebhook.DispatchOutcomes | backend/src/webhooks/elevenlabs.ts:33-74 | 400 iff the tool field is missing; 404 iff it names no tool; a named tool answers 200 with its result, or 500 when it fails |
| ElevenLabsWebhook.CatalogIndex | backend/src/webhooks/elevenlabs.ts:76-116 | finds the catalogue entry of a name, or -1 |
| ElevenLabsWebhook.CatalogNamesAreToolNames | backend/src/webhooks/elevenlabs.ts:76-116 | the catalogue lists seven distinct tool names |
| ElevenLabsWebhook.CatalogLookups | backend/src/webhooks/elevenlabs.ts:76-116 | each catalogue name resolves to its own tool |
| ElevenLabsWebhook.CatalogMatchesDispatcher | backend/src/webhooks/elevenlabs.ts:43-116 | the advertised list and the dispatcher agree: each listed name is dispatched, each tool is listed, none twice |
| ElevenLabsWebhook.ToolListed | backend/src/webhooks/elevenlabs.ts:76-116 | every dispatchable tool appears in the list |
| ElevenLabsWebhook.InboundCallsGetMemberOrSalesPrompt | backend/src/webhooks/elevenlabs.ts:13-31 | 400 iff the caller id is missing or not a string; otherwise the inbound prompt is new-caller, member or sales by caller type |
| Text.DigitsOnly | backend/src/services/crm.service.ts:125 | `replace(/\D/g, '')` keeps only digits, never lengthening the string |
| Text.DigitsOnlyKeepsDigitStrings | backend/src/services/crm.service.ts:125 | a string of digits is unchanged |
| Text.DigitsOnlyIdempotent | backend/src/services/crm.service.ts:125 | stripping twice is stripping once |
| Text.DigitsOnlyConcat | backend/src/services/crm.service.ts:125 | stripping distributes over concatenation |
| Text.DigitsOnlyNoDigits | backend/src/services/crm.service.ts:125 | a string without digits strips to empty |
| Text.DigitsOnlyCounts | backend/src/services/crm.service.ts:125 | each digit occurs as often as before, and nothing else survives |
| Text.ReplaceFirstAt | backend/src/tools/scheduling/check-availability.ts:34 | a string `replace` replaces only the first occurrence of the pattern |
| Text.NatToString | backend/src/tools/scheduling/check-availability.ts:66 | a count is rendered as its decimal digits: non-empty, no leading zero, reading back as the count |
| Text.IndexOf | backend/src/tools/scheduling/check-availability.ts:35 | `indexOf` returns the first position of the element, or -1 iff it is absent |
| Seqs.Filter | backend/src/services/calendar.service.ts:50 | `filter` keeps every element that passes and only elements of the input that pass, never lengthening it |
| Seqs.FilterCounts | backend/src/services/calendar.service.ts:50 | each kept value occurs as often as in the input, and a value that fails not at all |
| Seqs.FilterConcat | backend/src/services/calendar.service.ts:50 | filtering a concatenation filters each part, the first part's survivors first: the input order is kept |
| Seqs.FilterSnoc | backend/src/services/calendar.service.ts:50 | filtering one more element appends it exactly when it passes |
| Seqs.FilterKeepsAll | backend/src/services/calendar.service.ts:50 | a filter every element passes returns the input unchanged |
| Seqs.FirstWhere | backend/src/services/crm.service.ts:74-79 | the first position whose element passes, or -1 iff none passes |
| Seqs.SliceTo | backend/src/flows/retention/retention-sweep.ts:32 | `slice(0, end)` is a prefix of length min(end, n), with JavaScript's rule for negative ends |
| Seqs.Reverse | backend/src/flows/messaging/handle-incoming-message.ts:34 | `reverse` puts element i at position n-1-i |
| Time.Weekday | backend/src/services/calendar.service.ts:153 | `getDay()` is between 0 and 6 |
| Time.DayBounds | backend/src/tools/scheduling/check-availability.ts:52-53 | an instant lies between the start and the end of its day |
| Time.MidnightOfMidnight | backend/src/tools/scheduling/check-availability.ts:52-53 | the start of day of a midnight is that midnight |
| Time.NextDay | backend/src/services/calendar.service.ts:47 | `addDays(d, 1)` moves to the next day and the next weekday |
| Time.DayShift | backend/src/tools/scheduling/check-availability.ts:43 | adding n days moves the day number by n |
| Time.WeekdayAfter | backend/src/tools/scheduling/check-availability.ts:41-43 | after n days the weekday advances by n modulo 7 |
| AppShell.DerivedScreenIsDrawn | src/App.tsx:19-29 | the screen derived from stored data is onboarding or dashboard iff a user is stored, dashboard iff config and credentials are too, and it always renders |
| AppShell.App.constructor | src/App.tsx:19-29 | the shell starts on the screen derived from stored user, config and credentials |
| AppShell.App.Rederive | src/App.tsx:19-29 | the effect re-derives the screen and changes nothing else |
| AppShell.App.OpenAuth | src/App.tsx:31-33 | "get started" leads from landing to the auth form |
| AppShell.App.BackToLanding | src/App.tsx:86 | back on the auth form returns to landing |
| AppShell.App.SignIn | src/App.tsx:35-45 | signing in stores the user with the default business name and opens the dashboard when configured, else onboarding |
| AppShell.App.SignUp | src/App.tsx:47-57 | signing up stores the user with the given business name, with the same screen rule |
| AppShell.App.CompleteOnboarding | src/App.tsx:59-63 | completing onboarding stores config and credentials and opens the dashboard |
| AppShell.App.SignOut | src/App.tsx:65-71 | signing out clears user, config and credentials and returns to landing |
| AppShell.App.AlwaysDrawn | src/App.tsx:73-100 | a valid shell always renders a page, and the dashboard shows the signed-in user |
| AuthFormView.SubmitError | src/components/AuthForm.tsx:22-33 | no error iff email and password are filled, and the business name too when signing up |
| AuthFormView.CallFor | src/components/AuthForm.tsx:35-44 | sign-in mode calls sign-in with the fields; sign-up mode calls sign-up with the business name too |
| AuthFormView.Toggled | src/components/AuthForm.tsx:122-128 | the toggle switches to the other mode |
| AuthFormView.AuthForm.constructor | src/components/AuthForm.tsx:16-20 | the form starts in sign-in mode with empty fields, not loading, with no call made |
| AuthFormView.AuthForm.Edit | src/components/AuthForm.tsx:82-107 | editing changes the fields only |
| AuthFormView.AuthForm.Submit | src/components/AuthForm.tsx:22-45 | an invalid form reports its message and calls nothing; a valid one starts loading with the matching call pending |
| AuthFormView.AuthForm.PressSubmit | src/components/AuthForm.tsx:72-108 | the browser's `required`/`type="email"` validation blocks a rejected form before `handleSubmit`, changing nothing; an accepted form never hits the error toasts and starts loading with the matching call pending |
| AuthFormView.AuthForm.Settle | src/components/AuthForm.tsx:35-44 | the pending call is made and loading ends |
| AuthFormView.AuthForm.ToggleMode | src/components/AuthForm.tsx:122-128 | toggling flips the mode and keeps the fields |
| AuthFormView.ToggleAndCalls | src/components/AuthForm.tsx:22-45 | toggling twice restores the mode; a call is only made with filled fields |
| OnboardingFlow.OnboardingWizard.constructor | src/components/OnboardingWizard.tsx:18-32 | the wizard starts at step 1 with the empty configuration |
| OnboardingFlow.OnboardingWizard.EditBusinessInfo | src/components/OnboardingWizard.tsx:160-235 | step 1 edits the business information only |
| OnboardingFlow.OnboardingWizard.EditCredentials | src/components/OnboardingWizard.tsx:270-320 | step 2 edits the credentials only |
| OnboardingFlow.OnboardingWizard.Next | src/components/OnboardingWizard.tsx:36-57 | step 1 needs business information and step 2 an AI provider and key, or the step stays with a message; step 3 completes with both |
| OnboardingFlow.OnboardingWizard.Back | src/components/OnboardingWizard.tsx:59-63 | back moves one step down, never below 1 |
| CampaignManagerView.TotalsAfterCreate | src/components/CampaignManager.tsx:44-53 | creating a campaign adds its budget, impressions and clicks to the totals, and one active campaign iff it is active |
| CampaignManagerView.StatusUpdateChangesOnlyStatus | src/components/CampaignManager.tsx:55-60 | a status update changes only the status of the campaigns with that id, so spend, impressions and clicks are unchanged |
| CampaignManagerView.DeleteRemovesExactly | src/components/CampaignManager.tsx:62-65 | deleting keeps exactly the campaigns with another id |
| CampaignManagerView.ToggleIsInvolution | src/components/CampaignManager.tsx:250-254 | the toggle exists only for active and paused campaigns, switches between them, and twice is the identity |
| CampaignManagerView.ClickThroughRate | src/components/CampaignManager.tsx:214-216 | CTR is "0" without impressions or clicks, otherwise the rendering of the percentage `CtrPercent` of clicks over impressions |
| CampaignManagerView.CtrPercent | src/components/CampaignManager.tsx:214-216 | the percentage p satisfies p·impressions = 100·clicks, and lies in [0, 100] when clicks ≤ impressions, 100 exactly when every impression was clicked |
| CampaignManagerView.CampaignList.constructor | src/components/CampaignManager.tsx:39 | the list starts with the stored campaigns |
| CampaignManagerView.CampaignList.Create | src/components/CampaignManager.tsx:49-53 | the new campaign is appended |
| CampaignManagerView.CampaignList.UpdateStatus | src/components/CampaignManager.tsx:55-60 | the list becomes the status-updated list |
| CampaignManagerView.CampaignList.Delete | src/components/CampaignManager.tsx:62-65 | the list loses the campaigns with that id |
| CampaignManagerView.AdSetFor | src/components/CampaignManager.tsx:430-444 | the ad set is for the campaign and account, budgets in cents, targets the chosen countries or "US" |
| CampaignManagerView.NewCampaignAddsNoMetrics | src/components/CampaignManager.tsx:446-458 | adding a new campaign adds only its budget to the totals |
| CampaignManagerView.CreateCampaignDialog.constructor | src/components/CampaignManager.tsx:318-341 | the dialog starts at step 1 with the default setup and creative |
| CampaignManagerView.CreateCampaignDialog.AccountsLoaded | src/components/CampaignManager.tsx:352-363 | the first loaded ad account is selected when there is one |
| CampaignManagerView.CreateCampaignDialog.EditSetup | src/components/CampaignManager.tsx:491-568 | step 1 edits the setup and account only |
| CampaignManagerView.CreateCampaignDialog.EditCopy | src/components/CampaignManager.tsx:570-650 | step 2 edits the ad copy only |
| CampaignManagerView.CreateCampaignDialog.EditImage | src/components/CampaignManager.tsx:655-677 | step 3 sets the image only |
| CampaignManagerView.CreateCampaignDialog.Next | src/components/CampaignManager.tsx:735-744 | the enabled Next button moves one step on |
| CampaignManagerView.CreateCampaignDialog.Back | src/components/CampaignManager.tsx:724-728 | Back moves one step back |
| CampaignManagerView.CreateCampaignDialog.Create | src/components/CampaignManager.tsx:413-469 | no account is an error with no request; otherwise the campaign and ad set requests are sent and the new paused campaign is returned iff both succeed |
| ShopView.StockListsFollowTheirRule | src/components/InventoryManager.tsx:22-23 | an item is listed as low iff quantity ≤ reorder level, and out of stock iff quantity is 0 |
| ShopView.InventoryValueAdds | src/components/InventoryManager.tsx:25 | the stock value adds up over the items and is non-negative for non-negative prices and quantities |
| ShopView.MonthlySalesCountThisMonthOnly | src/components/InventoryManager.tsx:26-32 | a sale adds to this month's total iff it falls in this month; the total lies between 0 and all sales |
| ShopView.Margin | src/components/InventoryManager.tsx:193 | the margin is (price - cost)/price·100, and 0 for a non-positive price |
| ShopView.MarginBounds | src/components/InventoryManager.tsx:193 | for a positive price, the margin is at most 100 when the cost is non-negative, and not negative when cost ≤ price |
| ShopView.BadgesExclusive | src/components/InventoryManager.tsx:207-216 | never both "sold out" and "low stock"; a low-stock badge means the item is on the low list |
| StudentsView.ActiveTab | src/components/StudentManagement.tsx:127 | the tab shows the first min(10, n) active students |
| StudentsView.LeadsTab | src/components/StudentManagement.tsx:149 | the tab shows the first min(10, n) leads |
| StudentsView.StatusListsDisjoint | src/components/StudentManagement.tsx:27-30 | each status list holds exactly the students of that status; no student is in two; at risk iff 3 or more absences |
| StudentsView.StatusListsPartition | src/components/StudentManagement.tsx:27-29 | active, delinquent, frozen and cancelled students together are all students |
| StudentsView.LeadListsFollowStatus | src/components/StudentManagement.tsx:32-33 | the qualified and new lead lists follow the lead status and never overlap |
| StudentsView.BalanceWarningOnlyWhenOwed | src/components/StudentManagement.tsx:127-206 | of the cards on the active, at-risk and delinquent tabs, only the delinquent tab's can warn of a balance, and a student gets the warning on some card iff delinquent with a positive balance |

## Left out

- Prompt and message wording: system prompts and reply texts are tagged values carrying their interpolated fields, not the literal multi-line strings. The SMS, reminder and tool messages are kept as literals.
- Genkit, Firebase, Twilio, ElevenLabs, the embedding model, the LLM and the Meta Marketing API are not modelled. Each of their calls that writes or sends is a parameter that can stand for failure: `None` for an `add` or a send, `false` for an `update` (`written`, `promoted`, `markWritten`). Their retries and network behaviour are not modelled.
- Firestore reads are assumed to succeed: `Crm.IdentifyUser`, `Crm.StudentProfile`, `Crm.AbsenteeStudents`, `Crm.DelinquentStudents`, `Messaging.ConversationHistory`, `Calendar.BookedBetween`, `Calendar.AppointmentsForReminder`, `Inventory.FirstNamed` and `KnowledgeBase.CategorySnapshot` are total functions of the stored collections. The paths where such a read throws are not modelled. Among them are the 500 "Failed to generate call config" of the `/call-config` handler, and the failure answers of the flows and tools whose lookup throws.
- Firestore query order, `limit(1)` and index behaviour: a collection is a sequence in insertion order, and queries read it in that order.
- Date comparisons in queries: `Calendar.BookedBetween`, `Calendar.AppointmentsForReminder` and `Crm.AbsenteeStudents` compare instants, while Firestore compares the stored ISO strings. Two strings that parse, but carry different UTC offsets (say "2026-10-18T10:00:00-05:00" against one in "Z"), can order differently as strings than as instants; the model follows the instants.
- ISO strings and date-fns: `parseISO` and `format` are oracle parameters. Dates are instants in UTC, so daylight-saving changes of the local zone are not modelled. `Calendar.AppointmentEnd` follows date-fns v3, where `addHours(start, duration / 60)` accepts a fractional hour count. Under v2, `addHours` truncates the count, so a 90-minute appointment would end after one hour.
- Floating point: cosine scores are reals kept without a square root, and CTR, margins and monetary totals are exact reals. `toFixed` is a display parameter.
- Concurrency: every flow runs sequentially. The `await` interleavings of the Express handlers and React effects are not modelled.
- `deleteDocument`, `getAllDocuments`, `getLeadsByStatus`, `getAppointment`, `updateAppointmentStatus`, `getUpcomingAppointments`, `addInventoryItem` and `getAllItems` of the services: no core operation calls them.
- `backend/src/webhooks/twilio.ts`, `backend/src/index.ts` and the configuration files are not part of this model.
- The landing page, dashboard, KPI dashboard and settings screens are not part of this model. Toasts are modelled only in `App`.
- The `searchQuery` state of the student screen is never used to filter, so it is not modelled.
- The loading spinners, progress bars and dialogs' open/closed flags are not modelled. The auth form's `loading` flag is.
- Credential groups other than the AI provider (Meta, Twilio, ElevenLabs): onboarding does not check them, so they are an opaque list.
- The AI copy and image generation buttons of the campaign dialog are not modelled. They only fill the creative fields that `EditCopy` and `EditImage` set.
- VectorSimilarity.Similarity: returns the cosine as the exact ratio it stands for, not the rounded IEEE-754 value.
- Calendar.NewAppointment: ids come from a parameter, not from Firestore's `add`.
- Calendar.BookingIsSeen: an unparsable stored date is never in any range or reminder window. Firestore compares the stored strings, so such a string may still fall inside a range. If it falls inside the reminder window, `format(parseISO(...))` in the reminder flow throws outside the per-appointment `try` and aborts the whole sweep. The total `display` oracle of `AppointmentReminderFlow` does not capture that.
- IncomingMessageFlow.HandleIncomingMessage: store writes by tools that the model calls during `ai.generate` are not modelled. The frame lists only the interaction log and the outbox.
- Numeric tool and flow inputs are integers in the model: `hoursAhead` of the reminder flow, `daysSinceLastAttendance` and `maxContacts` of the retention sweep, and `topK` of the knowledge tool. The source accepts any `z.number()`. A fractional value (`slice(0, 2.5)` truncates, and date arithmetic takes fractions) is not modelled.
- RetentionSweepFlow.RetentionSweep: the pause between contacts (`setTimeout`) is not modelled, and one `now` serves the whole sweep, where the source reads `new Date()` afresh for each student's days since attendance and each log's timestamp.
- The `id` field of an `updateDocument` patch is not modelled: `updateDocument` writes it into the document's data, which no query reads back as the id.
- CampaignManagerView.ClickThroughRate: the two-decimal rendering is a parameter.

## Findings

| source | as written | input that shows it | evidently intended | confidence | as-written member | corrected member |
|---|---|---|---|---|---|---|
| backend/src/services/calendar.service.ts:33-37 | the overlap test uses only strict comparisons (`isAfter`/`isBefore` on both ends) | a 60-minute appointment at 10:00 on a weekday, slot 10:00-11:00: no strict comparison holds, so the booked slot is offered | a slot is blocked by any appointment whose half-open interval intersects it | high, not executed | Calendar.AsWrittenOffersBookedSlot | Calendar.HalfOpenNeverOffersBookedTime |
| backend/src/tools/scheduling/check-availability.ts:49-61 | the tool passes on the service's slots as they come, strict overlap test included | "today" with a 60-minute appointment at 10:00 on a weekday: the 10:00-11:00 slot is in the tool's answer | the tool never offers an hour that is already booked | high, not executed | CheckAvailabilityTool.AsWrittenToolOffersBookedSlot | CheckAvailabilityTool.HalfOpenToolWithholdsBookedSlot |
| backend/src/tools/scheduling/book-appointment.ts:35-48 | the profile comes from `getStudentProfile`, which returns null for leads | booking an intro class for a lead: no SMS is sent, and the `user.type === 'lead'` promotion to `intro_scheduled` never runs | the user is looked up by id whatever its type | high, not executed | BookAppointmentTool.AsWrittenLeadsAreNeverPromoted | BookAppointmentTool.CorrectedLookupPromotesLeads |
| backend/src/flows/reminders/appointment-reminder.ts:40-53 | the same student-only lookup decides who is reminded | a lead with a phone and a scheduled intro class tomorrow: the reminder is counted as failed | leads with a phone are reminded too | high, not executed | AppointmentReminderFlow.AsWrittenLeadsAreNeverReminded | AppointmentReminderFlow.CorrectedLookupRemindsLeads |
| backend/src/services/inventory.service.ts:38-50 | the answer uses the first variant that matches the given size or colour | gi in size A2 with White 0 and Blue 3, asked for size A2 only: reported out of stock | report stock when any matching variant has it | medium, not executed | Inventory.AsWrittenHidesStockOfOtherColors | Inventory.SumOfMatchesReportsAnyStock |
