# Event reminders: a verified model

The system stores calendar-event reminders submitted in batches through
`POST /api/reminders`. Once a day, a job emails every reminder dated that day that
has not been sent yet. This project models:

- the endpoint's validation and its all-or-nothing insert;
- the reminder collection and the daily dispatch job;
- the browser form's bounded list of reminder blocks and the payload it submits.

It then proves what these promise.

Modules, one per component:

- `Common`: `Option`. A JSON `null` or a missing field is `None`.
- `Email`: the address pattern `^[^\s@]+@[^\s@]+\.[^\s@]+$`, read literally as three
  `[^\s@]+` atoms, with `\s` being JavaScript's whitespace set. It is proved equal to
  the plain-words rule: exactly one `@`, not first; no whitespace; a `.` after the `@`
  that is neither the first nor the last character of the domain.
- `Validation`: one submitted record (`Candidate`), the request's `reminders` member
  (`BatchField`: missing, not an array, or items), the four 400 messages, and the rule
  order. The order is: required fields truthy, then the email, then "Other needs a
  specification". The first failing record and its first failing rule decide the
  verdict. `ValidateEach` is the endpoint's early-return loop, proved against the
  function `FirstFailure`.
- `Store`: the stored document (`Reminder`) and the class `ReminderStore` over an
  `array<Reminder>`. The class provides `InsertMany`, the handler `Submit`, the job's
  query `FindDue` and the job `RunDailyJob`. Instants are integers in milliseconds.
  The day window is `[todayStart, todayStart + 86_400_000)`. The outcome of sending one
  reminder's mail (and marking it) is the parameter `deliver`.
- `Dispatch`: what one run does to the table, and what a second run on the same day
  selects.
- `Form`: the form's `reminders` state as the class `ReminderForm`. It provides add,
  remove and the payload loop of the submit handler. `FormData` is a map from field
  name to value.
- `Scenario`: a client of the store. It submits one reminder, then runs the job twice
  on the reminder's day.

Points where the code's behaviour is easy to misread, modelled as the code has them:

- The server does not limit a batch to three records.
- The server does not restrict `eventType` to Birthday/Anniversary/Other.
- An `otherEventType` sent with a type other than "Other" is stored as sent.
- A failed send is not retried on the next day. The next run's window no longer
  contains the record's date, so the record is never selected again
  (`Dispatch.OtherDaysUntouched`). Only another run on the same day retries it.

## Model

| member | source | states |
|---|---|---|
| `Email.PatternIsWellFormedEmail` | backend/server.js:75-78 | the pattern accepts a string exactly when it has one '@', which is not first, no JavaScript whitespace, and a '.' after the '@' that is neither first nor last in the domain |
| `Validation.CheckRecordVerdicts` | backend/server.js:70-83 | a record gets "missing field" exactly when a required field is falsy. It gets "bad email" exactly when the fields are present and the address is ill-formed. It gets "missing other type" exactly when both earlier rules pass, the type is "Other" and the specification is falsy. It passes exactly when all three rules hold |
| `Validation.OtherWithoutSpecificationRejected` | backend/server.js:81-83 | type "Other" with an absent or empty `otherEventType` is rejected, whatever the other fields hold |
| `Validation.OrdinaryTypePassesTypeRule` | backend/server.js:81-83 | a truthy type other than "Other" never fails the third rule |
| `Validation.FirstFailure` | backend/server.js:69-84 | a batch has no failure exactly when every record passes every rule |
| `Validation.FirstFailureLocated` | backend/server.js:69-84 | a batch's failure is the verdict of some record, and every record before it passes |
| `Validation.ValidateEach` | backend/server.js:69-84 | the early-return loop returns exactly the verdict of the first failing record, or none |
| `Validation.CheckBody` | backend/server.js:64-84 | an accepted body is a non-empty array whose records all carry the required fields |
| `Validation.AcceptedIff` | backend/server.js:64-87 | a body is accepted exactly when it is a non-empty array and every record passes; one failing record turns the whole batch away |
| `Validation.MalformedBodyRejected` | backend/server.js:64-66 | a missing, non-array or empty `reminders` is answered "Invalid reminder data" |
| `Store.NewRecords` | backend/server.js:46-49 | `insertMany` creates one document per candidate, with ids following the table's, each with `isReminderSent` false |
| `Store.DuePrefixSelects` | backend/server.js:157-160 | the query selects exactly the unsent records dated in the day window, each once, in increasing table order |
| `Store.ReminderStore.InsertMany` | backend/server.js:87 | the new table is the old one followed by the new documents; ids stay equal to positions |
| `Store.ReminderStore.Submit` | backend/server.js:60-98 | a rejected body leaves the table unchanged and answers the message of its verdict. An accepted body appends the whole batch and answers with the saved documents |
| `Store.ReminderStore.FindDue` | backend/server.js:150-160 | the query loop returns the positions of the due records, in table order |
| `Store.ReminderStore.RunDailyJob` | backend/server.js:137-167 | the loop records the id of each record at the moment its send is attempted, and that record equals the query result: every due record is attempted exactly once, in query order. The new table is the old one with exactly the due records whose send succeeded marked sent. A failure does not stop the loop |
| `Dispatch.DispatchSetsFlags` | backend/server.js:137-144 | a run changes only sent flags. A flag ends up true exactly when it was true already, or the record was due and its send succeeded. No flag is ever reset |
| `Dispatch.OtherDaysUntouched` | backend/server.js:150-160 | a record dated before today or from tomorrow on is neither selected nor changed |
| `Dispatch.DueAfterRun` | backend/server.js:141-160 | after a run, a record is due exactly when it was due and its send failed |
| `Dispatch.SecondRunRetriesOnlyFailures` | backend/server.js:137-167 | a second run on the same day selects exactly the records whose send failed in the first, in the same order |
| `Dispatch.AllDeliveredThenNothingDue` | backend/server.js:141-160 | when every send succeeds, a second run the same day selects nothing |
| `Dispatch.FailedSelects` | backend/server.js:142-144 | the failed-send list keeps exactly the attempted records whose send failed |
| `Dispatch.AcceptedRecordLabel` | backend/server.js:112 | the mail's type label is `otherEventType` for "Other" and the type otherwise; for an accepted record it is never absent or empty |
| `Scenario.BirthdayReminderSentOnce` | backend/server.js:60-167 | one well-formed reminder is stored unsent. On its day, the first run attempts exactly one send, for it, and leaves it marked sent; the second run attempts nothing |
| `Form.ReminderForm.constructor` | frontend/src/components/ReminderForm.js:6 | the form starts with one block, id 1 |
| `Form.ReminderForm.AddReminder` | frontend/src/components/ReminderForm.js:10-14 | below three blocks, one block numbered length + 1 is appended; otherwise nothing changes; never above three |
| `Form.ReminderForm.RemoveReminder` | frontend/src/components/ReminderForm.js:16-20 | with more than one block, every block with the id is dropped; otherwise nothing changes; never above three |
| `Form.WithoutIdShape` | frontend/src/components/ReminderForm.js:18 | removing by id drops every block with that id, keeps every other block as often as before, and adds none |
| `Form.WithoutIdConcat` | frontend/src/components/ReminderForm.js:18 | removal works part by part, so the kept blocks stay in their order |
| `Form.RunStaysBounded` | frontend/src/components/ReminderForm.js:10-20 | no sequence of adds and removes takes the list above three blocks |
| `Form.ReminderForm.BuildReminderData` | frontend/src/components/ReminderForm.js:27-37 | the payload has one record per block, in block order, each read from the fields named after that block's id |
| `Form.OtherTypeOrNull` | frontend/src/components/ReminderForm.js:34 | a missing or empty "other" field is submitted as null; any other value is submitted unchanged |
| `Form.FieldKeysDistinct` | frontend/src/components/ReminderForm.js:31-35 | blocks with different ids read different field names |
| `Form.NatTextInjective` | frontend/src/components/ReminderForm.js:31-35 | different block numbers render as different decimal texts |
| `Form.IdCollisionEmptiesList` | frontend/src/components/ReminderForm.js:10-18 | add, remove 1, add gives two blocks numbered 2, and then removing 2 leaves no block |
| `Form.WithoutIdDistinct` | frontend/src/components/ReminderForm.js:18 | when ids are distinct, removal drops at most one block and keeps ids distinct |
| `Form.FixedRunKeepsOneBlock` | frontend/src/components/ReminderForm.js:10-20 | with "add" numbering one above the largest id, ids stay distinct and the list keeps between one and three blocks |

## Findings

| source | as written | input that shows it | evidently intended | confidence | as-written member | corrected member |
|---|---|---|---|---|---|---|
| frontend/src/components/ReminderForm.js:12 | a new block gets id `length + 1`, which can already be in use after a removal | from `[1]`: add, remove 1, add gives `[2, 2]`. Both blocks render with the same key and read the same fields. Removing 2 then drops both, leaving a form with no block | block ids unique, and at least one block always present | high (not executed) | `Form.IdCollisionEmptiesList` | `Form.FixedRunKeepsOneBlock` |

The class `Form.ReminderForm` keeps the code as written, so it stays a model of the
source. The corrected "add" (`Form.AddFreshEntry`) numbers a new block one above the
largest id in use. The payload lemmas hold for any block list, so they apply to both
versions.

## Left out

- HTTP glue (Express routing, CORS, JSON parsing, the server start) is not modelled. `Response` stands for status 201 with the saved documents, or status 400 with a message.
- Persistence errors are not modelled: the MongoDB connection, a failing `insertMany` and its 500 "Server error" answer. These are foreign library calls, and the store is an in-memory table.
- The cast of the `eventDate` text to a `Date` is the parameter `toInstant`. A text that does not parse would make `insertMany` fail with 500; that is not modelled.
- A `null` element in the `reminders` array is not modelled. It makes the loop throw, which the endpoint answers with 500.
- Non-string JSON field values are not modelled. Each field is absent, null or a string; falsy means absent, null or empty.
- Request fields beyond the five the form sends are not modelled. A client-supplied `isReminderSent` or `createdAt` would be stored over the schema defaults.
- The generated `_id` is modelled as the document's position in the table. An update by id is therefore an update by position.
- Sending mail (nodemailer, subject and HTML body) is an external call. It is the parameter `deliver`, which says whether sending and marking one record succeeded. A send that succeeds but whose marking fails counts as a failure: the flag stays false.
- The order of the job's query result is not modelled as MongoDB gives it: `find` without a sort promises no order. The model takes table order (`DueIndices`). Each record's update depends only on that record and its own send, so the table after a run (`AfterDispatch`) does not depend on that order; only the order of attempts and of a second run's selection do.
- A failure of the job's query (the outer `catch`) is not modelled. It only ends the run early.
- The cron schedule (07:00 daily) and JavaScript date arithmetic are not modelled: local time, `setHours`, `setDate`, daylight-saving days of 23 or 25 hours, `toLocaleDateString`. `todayStart` is an input, and a day is 86,400,000 ms.
- Concurrency between a job run and submissions is not modelled. The job reads its query result as a snapshot and updates by id, which the model does in sequence.
- The form's network call, timers, submit status and busy flags, and the JSX rendering are not modelled; they are asynchronous UI code. `EventInput.js` and `App.js` only show or hide fields and a dialog.
- Store.NewRecords: its contract states count, ids and the unsent flag. The copied field values are stated only by its definition (`ToRecord`).
