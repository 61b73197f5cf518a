# Sales AI platform core, modelled in Dafny

This project models the in-memory logic of a mortgage sales assistant.
The assistant dials a campaign of leads, scores and stores them, talks to a
CRM (Salesforce), keeps a usage quota for its business profile, signs task
receipts and dispatches follow-up messages. The model is written in Dafny,
and it proves what each piece promises.

There is one module per core source file:

| module | source | form |
|---|---|---|
| `Campaign` | `core/campaign_manager.py` | class `CampaignManager`, with a one-iteration `Step` and a `RunDialer` loop |
| `Platform` | `core/platform_manager.py` | class `PlatformManager`; the data file is a field |
| `Leads` | `core/lead_management.py` | class `LeadManager` over the two in-memory stores; pure scoring rubric |
| `Crm` | `core/salesforce_client.py` | class `SalesforceClient`; pure text, mapping and time helpers |
| `CrmApp` | `core/salesforce_app.py` | functions |
| `AgentInterface` | `core/agent_interface.py` | `TaskResponse` datatype, class `BaseAgent` |
| `CommOrchestrator` | `core/comm_orchestrator.py` | functions |

`Base` holds the value model shared by every module:

- Option and Result types.
- A Python dictionary as `map<string, Value>`, where a `Value` is null, a string, an integer or a boolean.
- Python's `dict.get`, truthiness and `or`.

`Text` holds the string functions the source relies on, with their own lemmas:

- substring containment, ASCII `lower()`/`upper()`, `strip`;
- `split()` and `split(sep)`;
- `str.replace` of a single character;
- decimal rendering and parsing of integers.

Anything the source reads from the clock, a random generator, the network
or a file is a parameter of the model:

- `now` and `stamp` stand for timestamps and generated ids.
- `outcomes` and `callIds` are per-lead sequences that stand for the random
  outcome and the Vonage call id.
- `records`, `accepted` and `created` stand for what the CRM answered.

## Behaviour worth knowing

These follow from the source as written, and the model keeps them:

- A campaign load is not all-or-nothing. It first clears the queue and the cursor. If a row then fails (a CSV address with one space makes `split(" ")[-3]` raise), the queue keeps the leads converted so far and the counters are left as they were.
- CSV campaign leads carry no `do_not_call` key, so they are never skipped. Leads loaded from the CRM always have `do_not_call` false.
- Neither loader produces a lead of `type == "broker"`, so the broker greeting is reachable only for leads put in the queue by other code.
- A lead whose name is blank makes `lead_name.split()[0]` raise inside `log_demo_activity`. That ends the dialer task with `is_running` still true, after `dialed` has been counted (`Step` returns `crashed`).
- As written, the demo activity log forgets every earlier entry: each read is empty and each save leaves a blank file, so every new entry is `demo_1` (see Findings).
- `send_sms` builds its log line with `message[:30]`, and Python builds that line even when nothing is logged. So an SMS action whose payload message is null, an integer or a boolean raises TypeError.
- The platform routes `await` methods that are plain functions (not executed). `update_profile`, `upgrade_subscription`, `reset_usage` and `check_access` are ordinary `def`s (core/platform_manager.py:51-84). The routes at app.py:108-131 and the platform tests (tests/test_platform.py:42-72) `await` their results, which are `None`, a profile or a boolean. That raises TypeError after the method has already run and saved, so those routes answer with an error and the tests fail on every run. This is also how an active subscription gets into `platform_data.json`: a POST to `/api/platform/subscribe` runs `upgrade_subscription`, which saves `is_active` true before the TypeError. `LimitsScenario` and `UpgradeScenario` model the manager calls these tests intend, without the faulty `await`. They require an inactive subscription in the file they load, because a file saved after an upgrade grants every check.

With the log persisted (the corrected read, see Findings), the demo activity log keeps 20 entries and numbers each new one after the current length. Once the log is full, every new entry is `demo_21`.

## Model

| member | source | states |
|---|---|---|
| `Campaign.ClassifyOutcomes` | core/campaign_manager.py:155-178 | each of the four simulated outcome labels is classified as the intended kind: appointment booked, contacted or not contacted |
| `Campaign.Classify` | core/campaign_manager.py:170-178 | a label is booked exactly when it contains "APPOINTMENT", contacted exactly when it contains "Connected" but not "APPOINTMENT", and not contacted otherwise |
| `Campaign.StatusTextInjective` | core/campaign_manager.py:170-178 | the three kinds are written with three different statuses |
| `Campaign.OutcomeStatuses` | core/campaign_manager.py:170-178 | the status text for each outcome label: "Qualified - Appointment", "Working - Contacted" (both connected outcomes) and "Open - Not Contacted" |
| `Campaign.Tally` | core/campaign_manager.py:170-178 | an appointment adds 1 to both appointments and connected; a connected outcome adds 1 to connected only; voicemail adds nothing; total and dialed are untouched |
| `Campaign.PassFor` | core/campaign_manager.py:119-146 | a lead is skipped exactly when `do_not_call` or `DoNotCall` is truthy; an unskipped lead with a blank name crashes the loop; otherwise the pass carries the oracle's outcome |
| `Campaign.Apply` | core/campaign_manager.py:119-124 | a pass adds 1 to dialed unless the lead was skipped, and never changes total |
| `Campaign.ScriptFor` | core/campaign_manager.py:128 | the broker script is chosen exactly when the lead has type "broker" |
| `Campaign.Greeting` | core/campaign_manager.py:128-131 | the greeting starts "Hi " for broker leads and "Hello " otherwise, and the lead's name follows right after that salutation |
| `Campaign.RecordingUrl` | core/campaign_manager.py:181 | the recording link is 25 characters longer than the name and contains no space |
| `Campaign.RecordingUrlSeparates` | core/campaign_manager.py:181 | two names with the same recording link agree once spaces become underscores, so the link determines the name up to that replacement |
| `Campaign.CallsFor` | core/campaign_manager.py:119-135 | a skipped lead places no call; any other lead places exactly one, to its phone, with its name and script |
| `Campaign.WritesFor` | core/campaign_manager.py:140-190 | a called lead logs exactly two entries: "Dialing..." with the call id (or SIMULATED), then the classified status with the outcome's notes and its recording link; skipped and crashed passes log nothing |
| `Campaign.Run` | core/campaign_manager.py:114-178 | a run never changes total, and dialed grows by at most one per pass |
| `Campaign.RunCounts` | core/campaign_manager.py:114-178 | after a sequence of passes, dialed grows by the passes that were not skipped, connected by the connected outcomes and appointments by the bookings |
| `Campaign.CountsOrdered` | core/campaign_manager.py:170-178 | over any sequence of passes, bookings ≤ connects ≤ dials |
| `Campaign.RunKeepsOrder` | core/campaign_manager.py:114-178 | running passes preserves appointments ≤ connected ≤ dialed, and dialed grows by at most one per pass |
| `Campaign.SkipsAreDoNotCall` | core/campaign_manager.py:119-121 | the number of skipped passes equals the number of do-not-call leads processed |
| `Campaign.Either` | core/campaign_manager.py:49-54 | `row.get(a) or row.get(b, default)`: the first key's value when truthy, the second lookup otherwise |
| `Campaign.CityField` | core/campaign_manager.py:52 | the city is the third-from-last space-separated piece of the address when it has a space and at least three pieces; an address with a space but fewer than three pieces fails with IndexError; a non-string address fails with TypeError; no space means the City column, defaulting to "Unknown" |
| `Campaign.CityFailsOnOneSpace` | core/campaign_manager.py:52 | for a string address, the city lookup fails exactly when the address holds exactly one space |
| `Campaign.NormalizeCsvRow` | core/campaign_manager.py:48-57 | a CSV row becomes a queued lead with company "General Services", name "Primary Borrower" or else "Name" or else "Unknown", phone "Phone" or else "Mobile"; it fails exactly when the city lookup fails |
| `Campaign.CsvEntry` | core/campaign_manager.py:48-57 | the CSV lead has exactly the eight keys, company "General Services" and no do-not-call key |
| `Campaign.CsvNameDefaultsToUnknown` | core/campaign_manager.py:49 | a row with neither name column loads with the name "Unknown" |
| `Campaign.ConvertCrmRecord` | core/campaign_manager.py:82-85 | a CRM record converts exactly when the lead-model sync accepts it, and to the dumped model |
| `Campaign.CrmLeadQueued` | core/campaign_manager.py:84 | a converted CRM lead has name, phone and company keys and is not do-not-call |
| `Campaign.DumpQueued` | core/campaign_manager.py:84 | a dumped lead model can be queued, and it is do-not-call exactly when its flag is set |
| `Campaign.LoadAll` | core/campaign_manager.py:46-58 | the queue holds the converted rows in order, up to the first row that fails; there is no error exactly when every row converts, and then every row is in the queue |
| `Campaign.LoadAllStopsAt` | core/campaign_manager.py:46-69 | when the prefix converts and the next row fails, the load yields exactly that prefix and that error |
| `Campaign.LoadAllComplete` | core/campaign_manager.py:46-65 | when every row converts, the load yields all converted rows and no error |
| `Campaign.ConvertRows` | core/campaign_manager.py:46-58 | the loop that appends converted rows computes the load function's result, and every lead it keeps can be queued |
| `Campaign.DialedWithinCursor` | core/campaign_manager.py:114-178 | after a fresh load, appointments ≤ connected ≤ dialed ≤ cursor ≤ queue length, and dialed equals the cursor minus the skipped leads |
| `Campaign.CampaignManager.constructor` | core/campaign_manager.py:20-31 | empty queue, not running, cursor 0, all counters 0 |
| `Campaign.CampaignManager.Refill` | core/campaign_manager.py:38-69 | the queue is replaced by the load's leads and the cursor reset; on success total is the count and the other counters are 0; on failure the counters are unchanged |
| `Campaign.CampaignManager.LoadFromCsv` | core/campaign_manager.py:33-69 | the CSV load as `Refill` over the row conversion; every loaded lead has company "General Services" |
| `Campaign.CampaignManager.LoadFromCrm` | core/campaign_manager.py:71-96 | the CRM load as `Refill` over the records the client returns for the campaign |
| `Campaign.CampaignManager.Start` | core/campaign_manager.py:98-104 | a dialer is spawned exactly when the campaign was not running; afterwards it is running and nothing else changed |
| `Campaign.CampaignManager.Stop` | core/campaign_manager.py:106-108 | afterwards not running; nothing else changed (so stopping twice is stopping once) |
| `Campaign.CampaignManager.Step` | core/campaign_manager.py:114-190 | one loop pass: reads the lead at the cursor, advances the cursor by exactly 1, records the pass, applies it to the counters and appends its calls and log writes |
| `Campaign.CampaignManager.Skip` | core/campaign_manager.py:119-121 | a do-not-call lead consumes its cursor slot with no call, no log write and no counter change |
| `Campaign.CampaignManager.Dial` | core/campaign_manager.py:123-190 | a callable lead is dialled: one call, its log writes and the counter update for its outcome |
| `Campaign.CampaignManager.Advance` | core/campaign_manager.py:114-190 | one iteration keeps the trace relating processed passes, calls and log writes to the queue and the oracles |
| `Campaign.CampaignManager.RunDialer` | core/campaign_manager.py:110-200 | the loop processes leads in queue order from the cursor; it stops with the flag cleared when the queue is exhausted or a stop arrives, and stops with the flag still set only when a lead crashes it |
| `Campaign.PassesAt` | core/campaign_manager.py:114-121 | the k-th pass of a run is the pass for the k-th queued lead and its outcome |
| `Campaign.RunSkipsDoNotCall` | core/campaign_manager.py:119-121 | a run skips exactly the do-not-call leads in the processed range |
| `Campaign.TwoCsvRowsLoad` | core/campaign_manager.py:46-65 | two named CSV rows load as two callable leads |
| `Campaign.NamedRowLoads` | core/campaign_manager.py:48-57 | a row with a Name that starts with a non-space loads with that name and city "Unknown", is not do-not-call, and is dialled with whatever outcome comes |
| `Campaign.BlankRowLoads` | core/campaign_manager.py:141-146 | a row whose name is a single space loads, and every pass over it crashes |
| `Campaign.TwoLeadRun` | core/campaign_manager.py:114-178 | over the two loaded leads with a booking then a voicemail, no pass crashes and the counters are (2, 1, 1, 1) after one pass and (2, 2, 1, 1) after two |
| `Campaign.CsvCampaignScenario` | core/campaign_manager.py:33-200 | load two rows, start, run with a booking then a voicemail: 2 steps, no crash, not running, counters (2, 2, 1, 1) |
| `Campaign.StopAfterFirstScenario` | core/campaign_manager.py:106-116 | a stop after the first iteration leaves the cursor at 1, counters (2, 1, 1, 1) and the flag cleared |
| `Campaign.BlankNameScenario` | core/campaign_manager.py:141-146 | a lead whose name is a single space crashes the dialer after the dial is counted, with the flag still set |
| `Platform.ProfileDict` | core/platform_manager.py:6-14 | the dumped profile has exactly the eight field keys, all strings |
| `Platform.ProfileFromDict` | core/platform_manager.py:6-14 | a profile validates exactly when every supplied profile field is a string; each field is the supplied value or its default |
| `Platform.ProfileRoundTrip` | core/platform_manager.py:6-14 | rebuilding a profile from its dump gives the same profile |
| `Platform.MergeProfile` | core/platform_manager.py:51-56 | supplied keys override, every other field keeps its current value; rejected exactly when a supplied field is not a string |
| `Platform.MergeNothing` | core/platform_manager.py:51-56 | merging a dict with no profile keys leaves the profile as it was |
| `Platform.SubscriptionDict` | core/platform_manager.py:46 | the dumped subscription has exactly the four field keys; SubscriptionRoundTrip rebuilds it |
| `Platform.SubscriptionFromDict` | core/platform_manager.py:16-20 | a subscription validates exactly when its supplied fields have the right types; each field is the supplied value or its default (inactive, "Free", 0 of 10), so an empty dict gives the free tier |
| `Platform.SubscriptionRoundTrip` | core/platform_manager.py:16-20 | rebuilding a subscription from its dump gives the same subscription |
| `Platform.Gate` | core/platform_manager.py:63-73 | access is granted exactly when active or under the limit; only an inactive grant adds 1 to the usage count; no other field changes |
| `Platform.GateKeepsQuota` | core/platform_manager.py:68-73 | while inactive, usage count ≤ usage limit is preserved |
| `Platform.AnswersOnFreeTier` | core/platform_manager.py:63-73 | on the free tier the i-th of repeated checks is granted exactly when i < limit − count |
| `Platform.AnswersOnPremium` | core/platform_manager.py:65-66 | an active subscription grants every check |
| `Platform.Load` | core/platform_manager.py:29-39 | a missing or unreadable file gives the default profile and the free tier; a profile section that is not an object or does not validate also gives both defaults; a good profile with a bad subscription section gives that profile and the free tier; two good sections give what they hold |
| `Platform.PartialSubscriptionLoads` | core/platform_manager.py:35 | a subscription section holding only a usage limit loads as the free tier with that limit |
| `Platform.Saved` | core/platform_manager.py:41-49 | the saved file holds both sections as objects, and each of them loads |
| `Platform.SaveLoadRoundTrip` | core/platform_manager.py:29-49 | loading what was saved gives back the saved profile and subscription |
| `Platform.PlatformManager.constructor` | core/platform_manager.py:23-39 | the state is what the file loads to; a missing file is created with the defaults |
| `Platform.PlatformManager.UpdateProfile` | core/platform_manager.py:51-58 | the profile becomes the merge and is saved; on a validation error nothing changes |
| `Platform.PlatformManager.CheckAccess` | core/platform_manager.py:63-73 | the gate's decision: an active subscription is granted with nothing changed; an inactive one under its limit is granted, incremented and saved; otherwise refused with nothing changed |
| `Platform.PlatformManager.UpgradeSubscription` | core/platform_manager.py:75-79 | active, plan "Premium", other fields kept, saved |
| `Platform.PlatformManager.ResetUsage` | core/platform_manager.py:81-83 | usage count 0, other fields kept, saved |
| `Platform.LimitsScenario` | tests/test_platform.py:40-53 | with the usage reset and the limit set to 2, three checks answer true, true, false |
| `Platform.UpgradeScenario` | tests/test_platform.py:55-74 | with the limit lowered to 1, the second check is refused; after the upgrade the subscription is active and a check is granted while the usage count stays at 1 |
| `Leads.FieldErrors` | core/lead_management.py:11-24 | no validation errors exactly when the name is a non-empty string and every other supplied field has its declared type |
| `Leads.ValidateLead` | core/lead_management.py:11-24 | the model is built exactly when the fields validate; a missing or empty name is an error on "name"; every field carries the supplied value or its declared default: id, email, phone, company and updated_at the string or none, notes "" when absent, source "unknown", status "new", score 0, do_not_call false, created_at the current time |
| `Leads.ToDict` | core/lead_management.py:77 | the dump has exactly the twelve field keys, with the name, status and do-not-call flag as stored; DumpRoundTrip validates it back |
| `Leads.DumpRoundTrip` | core/lead_management.py:11-24 | validating a dumped lead gives back the same lead |
| `Leads.AssignedId` | core/lead_management.py:73 | a supplied id is kept; otherwise the generated stamp is used |
| `Leads.Stamped` | core/lead_management.py:73-75 | the saved lead has the assigned id and `updated_at` set to now, and is otherwise the validated lead |
| `Leads.SaveInto` | core/lead_management.py:68-84 | a valid lead is stored under its id and the id returned; only that entry changes; an invalid one leaves the store unchanged and returns the validation error |
| `Leads.SaveKeepsSuppliedId` | core/lead_management.py:73-75 | a lead with a non-empty id is stored under that id and keeps it |
| `Leads.SavesUnderGivenId` | core/lead_management.py:73-75 | the record with name "A" and id "x" is stored under "x" |
| `Leads.SaveRejectsMissingName` | core/lead_management.py:14 | a dict without a non-empty name is rejected on "name" and stores nothing |
| `Leads.AppendTurn` | core/lead_management.py:112 | one entry is appended at the end of that lead's history, creating it if absent; other histories are unchanged |
| `Leads.Turn` | core/lead_management.py:99-107 | the entry carries the lead id, role and message; its meta is the given dict or empty |
| `Leads.Rubric` | core/lead_management.py:122-142 | the score is a multiple of 5 in [0, 75]; it is at least 40 exactly at a milestone; it is 75 exactly when all four criteria hold and 0 exactly when none holds |
| `Leads.CalculateLeadScore` | core/lead_management.py:114-142 | the rubric on the lowered status (default "new") and notes (default ""), and within [0, 75]; undefined (an error in the source) when either is not a string |
| `Leads.RubricMonotoneInNotes` | core/lead_management.py:129-140 | appending text to the notes never lowers the score |
| `Leads.RubricIgnoresCase` | core/lead_management.py:123-124 | lowering the inputs first gives the same score |
| `Leads.ScoresVaLead` | tests/test_lead_logic.py:8-15 | the VA lead scores 10 |
| `Leads.ScoresWorkingContact` | tests/test_lead_logic.py:17-24 | the contacted lead scores 15 |
| `Leads.ScoresAppointment` | tests/test_lead_logic.py:26-34 | the qualified veteran with an appointment in long notes scores 60 |
| `Leads.ScoresDetailedNotes` | tests/test_lead_logic.py:36-43 | the lead with long plain notes scores 10 |
| `Leads.CsvLeadData` | core/lead_management.py:150-158 | the CSV lead dict has exactly seven keys; the name is taken from the first present of "Primary Borrower", "name", "Name" (default "Unknown"); the company from "company", then "Company" (default "General Services"); source "csv_upload"; status "new" |
| `Leads.ScoredCsvLead` | core/lead_management.py:160 | the dict gains a score equal to the lead score of the rest of the dict, and nothing else changes |
| `Leads.CsvLeads` | core/lead_management.py:148-160 | one scored dict per row, in order |
| `Leads.UploadFrom` | core/lead_management.py:148-163 | a completed upload returns the number of rows, and no id already stored disappears |
| `Leads.UploadFromTags` | core/lead_management.py:144-163 | after an upload every stored lead is either an untouched earlier one or a lead from one of the rows with source "csv_upload", status "new" and the rubric's score; no earlier id disappears; a success counts every row |
| `Leads.CsvLeadValidates` | core/lead_management.py:150-161 | a row with a non-empty name saves as a csv_upload/new lead with the rubric's score |
| `Leads.UploadKeepsOrStores` | core/lead_management.py:148-163 | from any row onward, every stored lead is either kept from before or the stamped lead of a row from there on; no id disappears; a success counts every row |
| `Leads.UploadStopsAtNameless` | core/lead_management.py:161 | an upload reaching a dict without a non-empty name, after dicts that validate, fails with an error on "name" |
| `Leads.UploadCountsRows` | core/lead_management.py:144-163 | when every row has a non-empty name, the upload returns the number of rows |
| `Leads.UploadStopsAtEmptyName` | core/lead_management.py:161 | when every earlier row has a non-empty name and a row has none, the upload fails with a validation error on "name" |
| `Leads.LeadManager.constructor` | core/lead_management.py:44-49 | both in-memory stores start empty |
| `Leads.LeadManager.GetLead` | core/lead_management.py:86-91 | the stored lead for the id, or nothing when absent |
| `Leads.LeadManager.SaveLead` | core/lead_management.py:68-84 | the store becomes `SaveInto`'s; a saved id then reads back the stamped lead; every other id reads as before |
| `Leads.LeadManager.SaveConversation` | core/lead_management.py:99-112 | exactly one entry is appended to that lead's history, the others are unchanged, and the lead store is untouched |
| `Leads.LeadManager.ProcessCsvUpload` | core/lead_management.py:144-163 | the loop over rows saves each scored lead and yields the upload function's result and store |
| `Crm.StatusForDisposition` | core/salesforce_client.py:167-179 | APPOINTMENT_BOOKED → Qualified; INTERESTED and CALLBACK_SCHEDULED → Working - Contacted; NOT_INTERESTED, WRONG_NUMBER and DO_NOT_CALL → Closed - Not Converted; VOICEMAIL, NO_ANSWER and any unknown code → Open - Not Contacted (each as an if-and-only-if) |
| `Crm.DispositionUpdate` | core/salesforce_client.py:126-165 | the update sets the mapped status and the notes (or "AI Agent call - " + disposition); the call attempt is sent exactly when a non-zero count is given |
| `Crm.TaskData` | core/salesforce_client.py:211-219 | the task has exactly the seven fields, status "Not Started", type "Call" and the given due date or null |
| `Crm.SplitDuration` | core/salesforce_client.py:256-258 | minutes and seconds with 60·m + s = d and 0 ≤ s < 60 |
| `Crm.SplitDurationUnique` | core/salesforce_client.py:256-258 | that split is the only one with these properties |
| `Crm.LogCallSubject` | core/salesforce_client.py:254 | the subject starts "AI Agent Call #" |
| `Crm.LogCallSubjectDistinguishes` | core/salesforce_client.py:254 | two calls with the same subject have the same call number and the same outcome |
| `Crm.LogCallHeader` | core/salesforce_client.py:254-262 | the header line is longer than 15 characters, starts with "C" and ends with ":" |
| `Crm.LogCallHeaderShows` | core/salesforce_client.py:255-261 | for the whole minutes m and leftover seconds s of the duration, the header reads "Call Duration: <m>m <s>s", then the outcome line, then "Call Number: <n> of 11", then "Notes:" |
| `Crm.LogCallDescription` | core/salesforce_client.py:254-262 | the stripped description is the header alone when the notes are blank, and otherwise header, newline and the right-stripped notes |
| `Crm.Bucket` | core/salesforce_client.py:428-437 | under 1 minute is "Just now", under 60 is minutes, under 1440 is whole hours (1 to 23), otherwise whole days, each within its range |
| `Crm.FormatRelativeTime` | core/salesforce_client.py:414-439 | no time gives "Recently"; under 1 minute "Just now"; under 60 "<m> mins ago"; under 1440 "<m // 60> hours ago"; otherwise "<m // 1440> days ago" |
| `Crm.BucketMonotone` | core/salesforce_client.py:428-437 | an older time never lands in a finer bucket or a smaller amount |
| `Crm.DemoLead` | core/salesforce_client.py:480-493 | the demo lead: Demo User of Demo Company, with its phone, email and open status, and no Name key |
| `Crm.DemoLeads` | core/salesforce_client.py:100-124 | n demo leads numbered 1 to n after the prefix |
| `Crm.NewEntry` | core/salesforce_client.py:298-309 | a non-blank name gives the entry `demo_(count + 1)`, with first name the first token and last name the last token when the name holds a space; a blank name is an error |
| `Crm.EntryIdNumber` | core/salesforce_client.py:299 | the id is "demo_" followed by the decimal count + 1 |
| `Crm.Prepend` | core/salesforce_client.py:312-314 | the new entry is first, then the old entries in order, length min(old + 1, 20) |
| `Crm.FullLogRepeatsIds` | core/salesforce_client.py:299-314 | with the log persisted (the corrected read, see Findings), a full log numbers the new entry `demo_21` and stays at 20 |
| `Crm.ReadLog` | core/salesforce_client.py:275-284 | with `json` in scope (the corrected read, see Findings), a stored log reads back as its entries, and a missing or blank file as empty |
| `Crm.LogDemoAsWritten` | core/salesforce_client.py:271-318 | as written, a non-blank name leaves a blank file and a log holding only the new entry, numbered as if the log were empty; a blank name is an error |
| `Crm.ReadLogAsWritten` | core/salesforce_client.py:275-284 | as written, every read gives the empty log, whatever the file holds |
| `Crm.SaveLogAsWritten` | core/salesforce_client.py:286-292 | as written, every save leaves the file truncated and blank, whatever the log |
| `Crm.LogDemo` | core/salesforce_client.py:294-318 | with a persisting file, the new log is the new entry prepended to what was stored; a blank name is an error |
| `Crm.AsWrittenForgets` | core/salesforce_client.py:271-292 | as written, the second of two logged entries is alone in the log and numbered `demo_1` |
| `Crm.PersistedKeepsBoth` | core/salesforce_client.py:294-318 | with a persisting file, two logged entries are both kept, newest first, numbered `demo_2` and `demo_1` |
| `Crm.EntryDict` | core/salesforce_client.py:298-309 | the entry dict has exactly the ten dashboard keys, with its id and full name, and a null recording link exactly when there is none |
| `Crm.EntryDicts` | core/salesforce_client.py:332-339 | one dict per log entry, in order, carrying its full name |
| `Crm.Enrich` | core/salesforce_client.py:354-356 | a record gains exactly FullName (a string) and LastActionTime (the relative time of its LastModifiedDate), and every other field is unchanged |
| `Crm.EnrichAll` | core/salesforce_client.py:354-356 | each record enriched in place of itself, in order |
| `Crm.MergedOrder` | core/salesforce_client.py:330-360 | demo entries come first, then the enriched records in order, truncated to the limit |
| `Crm.RecentLeadsFrom` | core/salesforce_client.py:330-363 | given the demo log read: offline, the log cut to the limit, or the three demo leads when that is empty; connected, the log cut to the limit when the query raises or a record has no LastModifiedDate; otherwise the log entries first, then the enriched records in order, cut to the limit |
| `Crm.SalesforceClient.constructor` | core/salesforce_client.py:27-57 | connected exactly when all three credentials are present and the login succeeded; the in-memory log starts empty |
| `Crm.SalesforceClient.GetLeadsForCampaign` | core/salesforce_client.py:88-124 | five demo leads when not connected; three error leads when the query fails; three test leads for an empty "TEST" campaign; otherwise the records |
| `Crm.SalesforceClient.GetLead` | core/salesforce_client.py:68-86 | the demo lead for the id when not connected, otherwise what the CRM returned |
| `Crm.SalesforceClient.UpdateLeadDisposition` | core/salesforce_client.py:126-165 | demo mode sends nothing and returns true; connected, it sends the disposition update and returns whether it was accepted |
| `Crm.SalesforceClient.CreateTask` | core/salesforce_client.py:185-228 | demo mode sends nothing and returns "demo_task_id"; connected, it sends the task and returns the created id |
| `Crm.SalesforceClient.LogCall` | core/salesforce_client.py:230-269 | demo mode sends nothing and returns "demo_task_id"; connected, it creates the task "AI Agent Call #n - outcome" with the formatted description, Normal priority and no due date, and returns the created id |
| `Crm.SalesforceClient.LogDemoActivity` | core/salesforce_client.py:294-318 | a non-blank name logs to the file, and the in-memory log equals what was saved; a blank name changes nothing |
| `Crm.SalesforceClient.GetRecentLeads` | core/salesforce_client.py:320-363 | over the corrected, persisting log (see Findings): offline, the log cut to the limit, or the three demo leads d1 to d3 when that is empty; connected, the log cut to the limit when the query raises or a record has no LastModifiedDate; otherwise the log entries first, then the enriched records in order, never more than the limit |
| `Crm.SalesforceClient.GetRecentLeadsAsWritten` | core/salesforce_client.py:330-363 | as written, where the log always reads as empty: offline, always the three demo leads; connected, nothing when the query raises, and otherwise the enriched records cut to the limit |
| `Crm.SalesforceClient.RecentLeadsConnected` | core/salesforce_client.py:340-360 | connected, over the corrected log, with every record dated: the recent leads are the log entries, then the enriched records, cut to the limit |
| `CrmApp.NameField` | core/salesforce_app.py:22 | the record's Name when the key is present, otherwise "FirstName LastName" stripped |
| `CrmApp.PhoneField` | core/salesforce_app.py:24 | Phone when truthy, otherwise MobilePhone |
| `CrmApp.SyncFields` | core/salesforce_app.py:20-28 | the six mapped fields plus source "salesforce_sync", and nothing else |
| `CrmApp.SyncLeadToModel` | core/salesforce_app.py:18-28 | the lead-model validation of the mapped fields: source salesforce_sync, a non-empty name, status from the record or "new", not do-not-call, score 0 |
| `CrmApp.SyncRejectsNamelessRecord` | core/salesforce_app.py:22 | a record with no name parts fails validation |
| `CrmApp.SyncDemoLead` | core/salesforce_app.py:18-28 | the CRM's demo lead syncs to Demo User of Demo Company with its phone, id and status |
| `CrmApp.FollowUpFor` | core/salesforce_app.py:36-46 | a disposition mentioning APPOINTMENT (any case) gets the appointment subject, High priority and a one-hour due time; failing that, CALLBACK gets the callback subject and one day; otherwise "AI Follow-up: " + disposition, due now; priority is Normal unless it is an appointment |
| `CrmApp.FollowUpIgnoresCase` | core/salesforce_app.py:40-44 | the rule gives the same priority and due time to a lowered disposition |
| `CrmApp.OrchestrateTaskFromDisposition` | core/salesforce_app.py:30-54 | creates the follow-up task with description "Automated AI Disposition: " + notes and returns the client's result unchanged |
| `CrmApp.TriggerCadenceStep` | core/salesforce_app.py:56-74 | not connected: true with nothing sent; connected: one "Lead.update" of that lead that sets exactly the step, to current + 1, and the interaction time, to now; the result is whether it went through |
| `AgentInterface.TaskResponse.ToReceipt` | core/agent_interface.py:40-42 | the receipt starts "RCPT:" and ends in "b" |
| `AgentInterface.ReceiptRoundTrip` | core/agent_interface.py:40-42 | for colon-free ids and status, the receipt parses back to responder, task id, status and output length |
| `AgentInterface.ReceiptsDistinguish` | core/agent_interface.py:40-42 | two such responses with the same receipt agree on responder, task, status and output length |
| `AgentInterface.BaseAgent.constructor` | core/agent_interface.py:49-61 | the card carries the name, description, version "1.0.0" and the capabilities or none; all three counters start at 0 |
| `AgentInterface.BaseAgent.SignOffTask` | core/agent_interface.py:63-76 | the response copies task id and headers from the request, carries the given status and output and no artifacts, and is signed by the card's name; tasks_completed grows by exactly 1 and the other counters are unchanged |
| `AgentInterface.BaseAgent.CreateAdHocReceipt` | core/agent_interface.py:78-90 | task id "adhoc_" + stamp, output "ACTION:" + action + " DETAILS:" + details, headers exactly the ad-hoc type, signed by the card's name; tasks_completed grows by exactly 1 |
| `AgentInterface.TwoTasksScenario` | core/agent_interface.py:56-90 | a signed task and an ad-hoc receipt leave tasks_completed at 2 and both message counters at 0; the signed response keeps the request's task id |
| `CommOrchestrator.ExecuteAction` | core/comm_orchestrator.py:36-47 | SMS is sent exactly for "send_sms" with a truthy phone, email exactly for "send_email" with a truthy email, mail always for "send_physical_mail" (with the default address and template); otherwise nothing; the default message, subject and body are "" |
| `CommOrchestrator.Send` | core/comm_orchestrator.py:18-34 | email and mail always report success; SMS reports success exactly when the message is a string, and otherwise raises TypeError |
| `CommOrchestrator.SmsMessageMustBeText` | core/comm_orchestrator.py:20 | an SMS action to a lead with a phone raises exactly when the payload carries a message that is not a string; a missing message is sent as "" |
| `CommOrchestrator.NullMessageRaises` | core/comm_orchestrator.py:20 | an SMS action whose payload message is null raises TypeError |
| `CommOrchestrator.MailNeedsNoContact` | core/comm_orchestrator.py:30-47 | mail with no contact fields goes to the default address with the Default template |

## Left out

- I/O: the vendor SDKs (Gemini, simple_salesforce, Vonage, Firestore), the Firestore branches of the lead store, SOQL queries, the JSON file reads and writes, and logging. The stores and files are fields, and the CRM's answers are inputs.
- JSON parsing of the platform data file: the model's `Load` takes the contents already parsed. A file that is not JSON, or whose top level is not an object (where `data.get` raises), is the one case `Unreadable`, and both recover to the defaults alike.
- `app.py`, `core/agent_engine.py`, `core/agents/reviewer.py`, `core/research_engine.py` and `core/vonage_client.py` are not part of this model. They are HTTP routes and foreign calls. The Vonage call is an input: an optional call id per lead.
- Timing and concurrency: `asyncio.create_task` and the `asyncio.sleep` pauses. The dialer runs as a sequential loop, and a stop request is an input (`stopAfter` iterations) instead of a concurrent call.
- Randomness: the outcome of each dial is an input sequence over the four outcomes. The weights of `random.choices` are not modelled.
- Parsing: `csv.DictReader` and `bytes.decode`. Rows arrive already parsed as dictionaries.
- Dates: `dateutil` parsing, the time-zone handling and the fractional minutes in `_format_relative_time`. The age of a record is an integer number of minutes, or none when it cannot be parsed.
- Timestamps and ids from `datetime.now()` and `uuid4` are parameters (`now`, `stamp`).
- The lead timestamps: one `now` stands for both `datetime.now()` calls of a save, the `created_at` default (core/lead_management.py:23) and `updated_at` (line 75). A freshly saved lead without `created_at` therefore gets equal creation and update times, which the source does not guarantee. No contract depends on this.
- Unmodelled operations: `get_all_leads`, `get_profile`, `get_dashboard_stats`, `get_contact_by_phone` and its unreachable `_demo_contact` path. They are reads or reports with no state change.
- Pydantic: only the type checks and defaults the core relies on. There is no coercion between types.
- Text: case mapping, `isspace` and `split()` cover ASCII only.
- Campaign.CampaignManager.RunDialer: the log writes and placed calls are ghost sequences. The dashboard contents are not modelled beyond those writes.
- Campaign.CampaignManager.Refill: the new queue is assigned once the whole load has been computed. In the source it grows lead by lead, which nothing models concurrently.
- AgentInterface.BaseAgent.CreateAdHocReceipt: the status is a parameter, and the Python default "completed" is left to the caller.
- AgentInterface.TaskResponse.ToReceipt: its own contract states only the receipt's frame. The exact field order is stated by `ReceiptRoundTrip` for colon-free fields, and fields containing a colon are not parsed back.
- The counters `messages_sent` and `messages_received` are kept but never changed, as in the source.

## Findings

| source | as written | input that shows it | evidently intended | confidence | as-written member | corrected member |
|---|---|---|---|---|---|---|
| core/salesforce_client.py:271 | `import json` sits in the class body, so the name `json` is unknown inside `_get_demo_log` and `_save_demo_log`; each catches the error, reads an empty log and writes a blank file | log two activities with non-blank names in a row: the second log holds only the second entry, again numbered `demo_1` | the log persists between calls, newest first, up to 20 entries | not executed | `Crm.AsWrittenForgets` (over `Crm.LogDemoAsWritten`), and `Crm.SalesforceClient.GetRecentLeadsAsWritten`, which always gives the three demo leads offline | `Crm.PersistedKeepsBoth` (over `Crm.LogDemo`, used by `Crm.SalesforceClient.LogDemoActivity`); `Crm.ReadLog`, `Crm.SalesforceClient.GetRecentLeads` and `Crm.SalesforceClient.RecentLeadsConnected` read the same persisting log |
