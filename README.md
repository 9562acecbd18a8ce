# Dispatch voice agent: a Dafny model

This project models the core of a logistics voice-agent console:

- a FastAPI backend. It stores agent configurations, calls and call results in three Supabase tables. It starts phone calls through Retell AI, turns call transcripts into structured data through OpenAI, and answers Retell's webhook and LLM websocket.
- a React console with four screens: a dashboard, the agent-configuration editor, the start-call form and the call-results list.

Each source file of the core becomes one Dafny module:

| module | file | source |
|---|---|---|
| `Models` | `models.dfy` | `backend/app/models.py` |
| `Routes` | `routes.dfy` | `backend/app/routes.py` |
| `CallProcessor` | `call_processor.dfy` | `backend/app/services/call_processor.py` |
| `OpenAIService` | `openai_service.dfy` | `backend/app/services/openai_service.py` |
| `RetellService` | `retell_service.dfy` | `backend/app/services/retell_service.py` |
| `AgentConfigScreen` | `agent_config_screen.dfy` | `frontend/src/components/AgentConfig.jsx` |
| `CallResultsScreen` | `call_results_screen.dfy` | `frontend/src/components/CallResults.jsx` |
| `CallTriggerScreen` | `call_trigger_screen.dfy` | `frontend/src/components/CallTrigger.jsx` |
| `DashboardScreen` | `dashboard_screen.dfy` | `frontend/src/components/Dashboard.jsx` |
| `AppShell` | `app_shell.dfy` | `frontend/src/App.jsx` |

A few helper modules support them:

- `Wrappers` holds `Option` and `Result`.
- `Text` holds the Python and JavaScript string built-ins the code uses: `in`, `lower()`, `join`, `trim()`, `str(n)`, `padStart`.
- `Tables` holds the three tables, their rows and the query forms the handlers use.
- `Api` holds the reply of a frontend request: an answer carrying `success` and `data`, or an exception.

How the model represents the system:

- **Tables** are the fields of a `Db` class. Each table is a `seq` of rows in insertion order. The source reads `.execute().data[0]`, the first matching row, and a sequence makes that choice deterministic.
- **Row ids** are decimal strings drawn from a serial counter that the store owns. `Db.Valid()` keeps every stored id below the counter and the ids of each table distinct, so an inserted row never shares an id with another row.
- **JSON** bodies and dicts are `Models.Value` and `Models.Dict`.
- **Request validation** follows pydantic's rules:
  - a required field must be present with the right type;
  - an `Optional[...] = None` field may be missing or null;
  - a field with a default takes the default when it is missing;
  - undeclared keys are ignored.
- **Handlers that change tables or component state** are methods:
  - the backend's `Db` methods, and the `ProcessCompletedCall` and `HandleRetellWebhook` methods;
  - each React component is a class whose fields are its `useState` variables.
  - An async handler with a visible in-flight state is split at its `await` into a start method and a finish method (`StartSubmit`/`FinishSubmit`, `StartCallDetails`/`FinishCallDetails`).
- **External systems are inputs:**
  - what OpenAI answered is `OpenAIService.LlmReply`;
  - what Retell answered to the create-call request is `RetellService.CreateReply`;
  - the Retell call details are `Option<RetellService.CallDetails>`;
  - the clock is an `int` and the generated uuid is a string;
  - the rows of the summary SQL query are `seq<Dict>`;
  - a frontend request's reply is `Api.Reply<T>`.
- **The dynamic prompt** is `Render` of a `Template`, the fixed text around the four holes of the context block. Its properties are proved for every template, so they hold for the one the service uses.

## Model

| member | source | states |
|---|---|---|
| Models.ParseScenarioType | backend/app/models.py:6-8 | exactly "check_in" and "emergency" are scenario types, and a parsed value's string is the text it came from |
| Models.ScenarioTypeValues | backend/app/models.py:6-8 | each scenario type's string is one of the two values and parses back to the same value |
| Models.ParseCallStatus | backend/app/models.py:10-14 | exactly the four strings "initiated", "in_progress", "completed" and "failed" are call statuses, and each parses to the value named by it |
| Models.CallStatusValues | backend/app/models.py:10-14 | each status's string is one of the four, it parses back to the status, and two statuses with the same string are the same |
| Models.Get | backend/app/services/call_processor.py:59-65 | `d.get(k)` is the stored value when the key is present and null when it is missing |
| Models.Strings | backend/app/models.py:21 | a JSON list validates as `List[str]` iff every element is a string, and the strings it yields are the list's elements |
| Models.StringsOfStrValues | backend/app/models.py:21 | a list of strings sent as JSON validates back to the same list |
| Models.RequiredStr | backend/app/models.py:17-20 | a required `str` field validates iff the key is present and holds a string, and the result is that string |
| Models.Optional | backend/app/models.py:28-35 | an `Optional[...] = None` field that is missing or null validates to None |
| Models.Defaulted | backend/app/models.py:21-25 | a field with a default that is missing validates to the default |
| Models.ParseAgentConfigCreate | backend/app/models.py:16-25 | a create request validates iff the four fields without a default are strings (the scenario type one of the two enum values) and each defaulted field present has its type; the required fields carry the body's values, and each defaulted field carries the body's value or, when missing, its default |
| Models.CreateRoundTrip | backend/app/models.py:16-25 | validating a create request's `.dict()` gives the same request back |
| Models.CreateDefaults | backend/app/models.py:16-25 | a create request with only the four required fields gets no triggers, 3 retries, sensitivity 0.5 and both behaviour flags true |
| Models.AgentConfigUpdate.Field | backend/app/models.py:27-35 | a column the update model does not declare (scenario type, id, timestamps) always reads as null |
| Models.AgentConfigUpdate.Dict | backend/app/models.py:27-35 | `.dict()` holds exactly the eight declared update fields |
| Models.DictHoldsField | backend/app/models.py:27-35 | each declared column's entry in `.dict()` is that column's field value |
| Models.UpdateAllOptional | backend/app/models.py:27-35 | the empty body is a valid update that sets nothing |
| Models.UpdateValidation | backend/app/models.py:27-35 | a body is a valid update iff every declared field that is present and not null has its declared type; undeclared keys are ignored |
| Models.FieldsValidate | backend/app/models.py:27-35 | the same iff, written out for each of the eight declared fields |
| Models.UpdateFieldValues | backend/app/models.py:27-35 | in a valid update, an absent or null field is None, and a present one is the body's value, an integer read as a float in the float field |
| Models.UpdateIgnoresUndeclared | backend/app/models.py:27-35 | removing an undeclared key, such as `scenario_type`, from an update body does not change the validated update |
| Models.UpdateRoundTrip | backend/app/models.py:27-35 | validating an update's `.dict()` gives the same update back |
| Models.ParseCallCreate | backend/app/models.py:37-41 | a call request validates iff all four fields are present strings, and it carries exactly those four values |
| Models.CallCreateRoundTrip | backend/app/models.py:37-41 | validating a call request's dict gives the same request back |
| Tables.FindFirst | backend/app/routes.py:46-49 | the position found is the first row satisfying the filter; None means no row does |
| Tables.UpdateWhere | backend/app/routes.py:63 | `update().eq()` rewrites exactly the matching rows and leaves the others in place |
| Tables.DeleteWhere | backend/app/routes.py:77 | `delete().eq()` keeps exactly the rows that do not match |
| Tables.DeleteWhereCounts | backend/app/routes.py:77 | a row that does not match is kept as many times as it occurs, a matching row never |
| Tables.DeleteWhereAppend | backend/app/routes.py:77 | deleting from two runs of rows deletes from each in place, so the kept rows stay in table order |
| Tables.OnlyConfigWithId | backend/app/routes.py:46-49 | with distinct ids, `data[0]` of a select by id is the one config with that id |
| Tables.DeleteKeepsIdsDistinct | backend/app/routes.py:77 | a delete keeps the remaining config ids distinct |
| Tables.FindConfig | backend/app/routes.py:90-94 | the config found has the requested id and is stored; None iff no stored config has that id |
| Tables.FindConfigFirst | frontend/src/components/CallTrigger.jsx:89 | the lookup returns the first config carrying the id, as `Array.find` does |
| Tables.Db.InsertAgentConfig | backend/app/routes.py:35-37 | the new row gets a fresh id unused by every stored config, is appended, and the other tables are untouched |
| Tables.Db.InsertCall | backend/app/routes.py:106-107 | the new call row gets a fresh id, is appended, and the other tables are untouched |
| Tables.Db.InsertCallResult | backend/app/services/call_processor.py:71 | the new result row gets a fresh id and is appended; the other tables are untouched |
| Routes.Take | backend/app/routes.py:257 | `.limit(n)` keeps the first min(n, length) rows |
| Routes.CreateAgentConfig | backend/app/routes.py:30-39 | a create appends exactly the row built from the request and changes no other table |
| Routes.CreatedWithDefaults | backend/app/routes.py:30-39 | a config created from the required fields alone is stored with no triggers, 3 retries, sensitivity 0.5, both flags on and no `updated_at` |
| Routes.GetAgentConfig | backend/app/routes.py:41-53 | success iff a config with the id exists, and then the result is a stored config with that id, the only one in a valid store; otherwise 404 "Agent config not found" |
| Routes.UpdateData | backend/app/routes.py:60-61 | `update_data` holds exactly the declared fields that are not None, plus `updated_at` set to the clock, each with the request's value |
| Routes.UpdateDataKeys | backend/app/routes.py:60-61 | `update_data` never holds the scenario type, the id or `created_at`; an update that sets nothing writes `updated_at` alone |
| Routes.ApplyUpdateWritesUpdateData | backend/app/routes.py:60-63 | after the update every column holds its `update_data` value if it has one, else its old value; the scenario type, id and creation time never change |
| Routes.UpdateAgentConfig | backend/app/routes.py:55-70 | every row with the id is rewritten and the other tables are untouched; the answer is the update of the first config with the id, or 404 with the table unchanged iff no row had the id |
| Routes.DeleteAgentConfig | backend/app/routes.py:72-80 | no config with the id is left, the other tables are untouched, and the answer is "Agent config deleted" either way |
| Routes.NewCallRecord | backend/app/routes.py:97-104 | a new call record is `initiated`, carries the generated call id, and copies the config id, driver name, phone and load number from the request |
| Routes.StartCall | backend/app/routes.py:83-136 | unknown config: 404, no call row, nothing sent to Retell. Otherwise one initiated row is appended and Retell is asked to call the driver. Its `call_id` becomes Retell's id, or keeps the generated one; a Retell error gives 500 and the row stays |
| Routes.GetCallResults | backend/app/routes.py:166-178 | success iff a result row refers to the call, and then the result is a stored one for that call; otherwise 404 "Call results not found" |
| Routes.GetCallDetails | backend/app/routes.py:153-164 | no row gives 404 "Call not found"; every error is a 404; with a row, success iff the row has every column `call_info` reads; success carries the summary of the first row; failure carries the `KeyError` text of the first missing column |
| Routes.RetellWebhook | backend/app/routes.py:181-194 | the route answers success "Webhook received" and queues the webhook unchanged; the tables are not touched by the route itself |
| Routes.AgentOf | backend/app/routes.py:146 | the agent joined to a call is a stored config with the call's config id; None iff there is none |
| Routes.JoinConfigs | backend/app/routes.py:143-147 | the inner join lists exactly the calls whose config exists, each with that config's name and scenario type |
| Routes.JoinCounts | backend/app/routes.py:143-147 | each joined call appears once per occurrence of its call row, and nothing that is not such a join appears |
| Routes.InsertDesc | backend/app/routes.py:147 | inserting a listing adds exactly it to the multiset of listings |
| Routes.InsertDescSorted | backend/app/routes.py:147 | inserting into a list ordered newest first keeps it ordered |
| Routes.SortDesc | backend/app/routes.py:147 | ordering by `started_at` is a permutation of the listings |
| Routes.SortDescSorted | backend/app/routes.py:147 | the ordered listings are newest first |
| Routes.ListCalls | backend/app/routes.py:138-151 | `GET /calls` lists exactly the joined calls, as a permutation |
| Routes.RecentCalls | backend/app/routes.py:254-257 | the dashboard lists at most five recent calls |
| Routes.TakeNewest | backend/app/routes.py:254-257 | the first n of a list ordered newest first stay ordered, come from the list, and none of the rest started later than any of them |
| Routes.RecentCallsAreNewest | backend/app/routes.py:254-257 | the recent calls are newest first, min(5, joined calls) of them, taken from the joined calls; no call left out started later than a listed one |
| Routes.CountStatus | backend/app/routes.py:248-250 | a status count never exceeds the number of calls |
| Routes.DashboardStats | backend/app/routes.py:246-251 | `total_calls` is the number of calls |
| Routes.StatusCountsPartition | backend/app/routes.py:246-251 | completed + in-progress + failed + initiated counts equal the total, so the three counts shown add up to at most the total |
| Routes.CountStatusAppend | backend/app/routes.py:248-250 | appending a call raises exactly its own status's count by one |
| Routes.ContainsAny | backend/app/routes.py:219-220 | true iff one of the keywords occurs in the text |
| Routes.ReplyTo | backend/app/routes.py:208-228 | `response_required` gets a response with the same `response_id`, complete and not ending the call. Its content is the emergency line iff the non-empty lower-cased transcript holds a keyword. `ping` gets pong; any other message gets nothing |
| Routes.RepliesCount | backend/app/routes.py:203-228 | at most one reply per message, and exactly one per message when every message expects a reply |
| Routes.LlmWebsocket | backend/app/routes.py:197-232 | the receive loop sends exactly the replies of the messages, in order |
| CallProcessor.CalculateDuration | backend/app/services/call_processor.py:143-156 | a duration exists iff both timestamps are present and parse, and then start + duration = end |
| CallProcessor.StructuredData | backend/app/services/call_processor.py:41-54 | a null or empty transcript gives the "No Transcript Available" placeholder; otherwise the extractor of the config's scenario type is used |
| CallProcessor.NoTranscriptSkipsExtractor | backend/app/services/call_processor.py:43-48 | with a null or empty transcript the extractor's answer makes no difference, and the outcome is "No Transcript Available" |
| CallProcessor.OutcomeKeysNameColumns | backend/app/services/call_processor.py:59-65 | the seven summary result keys name the seven outcome columns of the result row, in order |
| CallProcessor.ResultProjectsOutcome | backend/app/services/call_processor.py:57-69 | the result row copies the seven outcome fields out of the structured data (null where missing), keeps the data and the transcript (null when Retell's transcript is null), refers to the call row, and is "processed" |
| CallProcessor.CallAndConfig | backend/app/services/call_processor.py:19-32 | "Call not found: id" iff no call has the Retell id; otherwise the first call with the id is used, success iff a config with the call's config id exists (the first such config), and "Agent config not found: config id" otherwise |
| CallProcessor.StartedCalls | backend/app/services/call_processor.py:112-114 | exactly the calls with the Retell id become `in_progress`; every other row is unchanged |
| CallProcessor.CompletedCalls | backend/app/services/call_processor.py:74-81 | exactly the processed call row becomes `completed`, with Retell's end time and the computed duration |
| CallProcessor.AnalyzedResults | backend/app/services/call_processor.py:130-132 | exactly the result rows of that call row take the new transcript |
| CallProcessor.UpdatesKeepIds | backend/app/services/call_processor.py:74-132 | none of the three row updates changes a row id |
| CallProcessor.ProcessCompletedCall | backend/app/services/call_processor.py:13-95 | the failures come in the source's order (no call, no config, no Retell details) and store nothing. Otherwise exactly one result row is appended and the call becomes completed; the reply carries Retell's transcript as given, null included |
| CallProcessor.HandleRetellWebhook | backend/app/services/call_processor.py:97-141 | no call id: refused, nothing changed. `call_started`: only matching calls become in progress. `call_ended`: the reply of `process_completed_call`, with its failures, nothing stored on failure, and on success one result row appended and the call completed. `call_analyzed`: a non-empty transcript patches the first matching call's results. Any other event: acknowledged, nothing changed |
| CallProcessor.FirstMissing | backend/app/services/call_processor.py:186-195 | None iff the row has every key; otherwise a key the row lacks |
| CallProcessor.FirstMissingIsFirst | backend/app/services/call_processor.py:186-195 | the key reported is the first one, in reading order, that the row lacks |
| CallProcessor.CallInfo | backend/app/services/call_processor.py:185-196 | `call_info` holds exactly the ten call columns, copied from the row |
| CallProcessor.Results | backend/app/services/call_processor.py:197-205 | `results` holds exactly the seven outcome keys, each copied from the row or null |
| CallProcessor.CallSummary | backend/app/services/call_processor.py:158-211 | no row: "Call not found". An error iff the row lacks a `call_info` column, and the error text is the quoted name of the first missing column. Otherwise the call info, results, transcript and structured data of the first row |
| OpenAIService.ChooseExtractor | backend/app/services/openai_service.py:14-19 | "check_in" picks the check-in extractor, "emergency" the emergency one, anything else the generic one, each iff |
| OpenAIService.EnumNeverGeneric | backend/app/services/openai_service.py:14-19 | the two stored scenario types never reach the generic extractor |
| OpenAIService.ProcessTranscript | backend/app/services/openai_service.py:11-134 | a parsed answer is returned as is; a failure returns the chosen extractor's fallback, which always has a `call_outcome` |
| OpenAIService.CheckInFailure | backend/app/services/openai_service.py:136-147 | a failed check-in extraction gives "Processing Failed", driver status "Unknown" and null location, eta and emergency fields |
| OpenAIService.EmergencyFailure | backend/app/services/openai_service.py:149-159 | a failed emergency extraction gives "Emergency Detected", type "Other", "Escalation Flagged" and urgency "High" |
| OpenAIService.GenericFailureReply | backend/app/services/openai_service.py:132-134 | a failed generic extraction gives exactly "Processing Failed" and the error text |
| OpenAIService.FallbacksIgnoreTranscript | backend/app/services/openai_service.py:136-159 | the check-in and emergency fallbacks depend on neither the transcript nor the error; only the generic one carries the error |
| RetellService.RenderHoles | backend/app/services/retell_service.py:64-78 | the system prompt starts the text, and each hole's text (driver, load, flow, triggers) sits verbatim at its own position |
| RetellService.RenderCarriesContext | backend/app/services/retell_service.py:64-96 | the prompt starts with the system prompt and contains the driver name, the load number and the conversation flow |
| RetellService.BodyListsTriggers | backend/app/services/retell_service.py:78 | each emergency trigger sits at its place in the trigger hole, in list order, followed by ", " except the last |
| RetellService.RenderListsTriggers | backend/app/services/retell_service.py:78-96 | the full prompt lists every trigger in order, separated by ", " |
| RetellService.NoTriggersEmptyList | backend/app/services/retell_service.py:78 | a config without triggers fills the trigger hole with the empty text |
| RetellService.BeginMessageShape | backend/app/services/retell_service.py:28 | the opening line is "Hi ", the driver name, ", this is Dispatch with a check call on load ", the load number and the closing question |
| RetellService.CallPayloadFields | backend/app/services/retell_service.py:20-45 | the payload calls the driver's number from the fixed number and points at the backend's websocket (default `http://localhost:8000`). It carries the dynamic prompt, the opening line and the config's sensitivity and backchannel flag; the metadata copies driver, load, scenario type and config id unchanged |
| RetellService.CreatePhoneCall | backend/app/services/retell_service.py:47-59 | a decoded answer yields its call id; an HTTP error raises "Failed to create call: " and the message |
| Text.Contains | backend/app/routes.py:219-220 | Python's `in` on strings: true iff the substring occurs at some position |
| Text.Lower | backend/app/routes.py:219 | `lower()` keeps the length and lower-cases each ASCII letter in place |
| Text.JoinAt | backend/app/services/retell_service.py:78 | in `sep.join(xs)` each element sits at its offset, followed by the separator except the last |
| Text.JoinSnoc | backend/app/services/retell_service.py:78 | joining a list extended by one element appends the separator and the element |
| Text.Trim | frontend/src/components/AgentConfig.jsx:86-89 | `trim()` gives a slice of the input that is empty iff the input is all white space, and otherwise starts and ends with a non-space |
| Text.NatToString | frontend/src/components/CallResults.jsx:94 | a number's decimal text is non-empty digits, starts with '0' only for 0, and has one digit iff the number is below 10 |
| Text.ParseNatToString | frontend/src/components/CallResults.jsx:94 | a number's decimal text reads back as the number |
| Text.PadStart | frontend/src/components/CallResults.jsx:94 | `padStart` gives the text preceded by as many fill characters as bring it to the width, and the text alone when it is already that wide |
| AgentConfigScreen.InitialDraft | frontend/src/components/AgentConfig.jsx:78 | the form starts from `defaultConfig` without a config; with one, every one of the nine form fields is the config's, the scenario as its name |
| AgentConfigScreen.DefaultsAgreeWithBackend | frontend/src/components/AgentConfig.jsx:12-22 | the form's defaults equal the backend's: check-in, 3 retries, sensitivity 0.5, both switches on |
| AgentConfigScreen.AddEmergencyTrigger | frontend/src/components/AgentConfig.jsx:86-94 | white-space-only input changes nothing; otherwise the trimmed input is appended, the rest of the draft is kept and the input is cleared |
| AgentConfigScreen.AddedTriggerTrimmed | frontend/src/components/AgentConfig.jsx:86-94 | an added trigger is non-empty, has no white space at either end and is a slice of the input |
| AgentConfigScreen.RemoveAt | frontend/src/components/AgentConfig.jsx:96-101 | the filter drops one element when the index is in range and none otherwise |
| AgentConfigScreen.RemoveAtCutsOut | frontend/src/components/AgentConfig.jsx:96-101 | removing index i cuts exactly that element and keeps the rest in order; an out-of-range index removes nothing |
| AgentConfigScreen.RemoveEmergencyTrigger | frontend/src/components/AgentConfig.jsx:96-101 | only the draft's triggers change |
| AgentConfigScreen.AddThenRemove | frontend/src/components/AgentConfig.jsx:86-101 | adding a trigger and removing its index gives the triggers back |
| AgentConfigScreen.Screen.constructor | frontend/src/components/AgentConfig.jsx:7-10 | the screen starts with no configs, loading, and no form open |
| AgentConfigScreen.Screen.FetchConfigs | frontend/src/components/AgentConfig.jsx:28-39 | a successful reply replaces the list, a failed one keeps it; loading ends either way |
| AgentConfigScreen.Screen.StartEditing | frontend/src/components/AgentConfig.jsx:379 | the edit button opens the edit form on that config |
| AgentConfigScreen.Screen.ShowCreateForm | frontend/src/components/AgentConfig.jsx:303-319 | the create and cancel buttons show and hide the create form |
| AgentConfigScreen.Screen.CancelEditing | frontend/src/components/AgentConfig.jsx:333 | cancel closes the edit form |
| AgentConfigScreen.Screen.HandleSave | frontend/src/components/AgentConfig.jsx:41-61 | editing sends an update of the edited config's id, otherwise a create. Success refetches and closes the form used; failure leaves both forms as they were |
| AgentConfigScreen.HandleDelete | frontend/src/components/AgentConfig.jsx:63-75 | a declined confirmation sends nothing and refetches nothing; a confirmed one sends the id and refetches unless it raised |
| CallResultsScreen.StatusBadgeAgreesWithDashboard | frontend/src/components/CallResults.jsx:44-61 | every status gets the same colour and label as on the dashboard, and an unknown one gets the Initiated badge |
| CallResultsScreen.OutcomeBadge | frontend/src/components/CallResults.jsx:63-83 | no badge iff the outcome is missing or empty; the label is always the outcome itself, and an unknown outcome is neutral grey with the phone icon |
| CallResultsScreen.KnownOutcomesColored | frontend/src/components/CallResults.jsx:66-72 | each of the five known outcomes gets a colour of its own, never the neutral one |
| CallResultsScreen.TruncatedRem | frontend/src/components/CallResults.jsx:93 | JavaScript's `%`: the remainder lies strictly between -60 and 60, differs from the duration by a multiple of 60, and has the duration's sign |
| CallResultsScreen.FormatDurationReadsBack | frontend/src/components/CallResults.jsx:90-95 | a positive duration shows as minutes, a colon and two digits of seconds, and minutes * 60 + seconds is the duration |
| CallResultsScreen.MinutesSecondsReadBack | frontend/src/components/CallResults.jsx:92-94 | minutes and 0..59 seconds formatted as "m:ss" read back as the same two numbers |
| CallResultsScreen.ColonReadsBack | frontend/src/components/CallResults.jsx:94 | decimal minutes, a colon and two digits read back as their numbers |
| CallResultsScreen.SecondsReadBack | frontend/src/components/CallResults.jsx:94 | the zero-padded seconds of 0..59 are two digits that read back as the number |
| CallResultsScreen.ZeroDurationNotAvailable | frontend/src/components/CallResults.jsx:91 | a missing or zero duration shows "N/A" |
| CallResultsScreen.Screen.constructor | frontend/src/components/CallResults.jsx:7-10 | the screen starts with no calls, no detail, loading, and details not loading |
| CallResultsScreen.Screen.FetchCalls | frontend/src/components/CallResults.jsx:16-27 | a successful reply replaces the list, a failed one keeps it; loading ends either way |
| CallResultsScreen.Screen.StartCallDetails | frontend/src/components/CallResults.jsx:29-30 | the detail request starts by setting `detailsLoading` |
| CallResultsScreen.Screen.FinishCallDetails | frontend/src/components/CallResults.jsx:31-41 | success shows the detail, an exception clears it, a non-success answer keeps it; `detailsLoading` ends on every path |
| CallResultsScreen.Screen.Close | frontend/src/components/CallResults.jsx:348 | closing the modal clears the selected call and nothing else |
| CallTriggerScreen.PreviewIsBeginMessage | frontend/src/components/CallTrigger.jsx:244-252 | the preview quotes exactly the opening line the backend gives the agent for the same driver and load |
| CallTriggerScreen.Screen.constructor | frontend/src/components/CallTrigger.jsx:12-19 | the form starts empty and not loading, with submit disabled and no preview |
| CallTriggerScreen.Screen.FetchConfigs | frontend/src/components/CallTrigger.jsx:25-41 | a successful non-empty reply selects its first config; an empty reply keeps the selection; a failure keeps the list and the form |
| CallTriggerScreen.Screen.HandleInputChange | frontend/src/components/CallTrigger.jsx:43-49 | only the named field takes the new value |
| CallTriggerScreen.Screen.StartSubmit | frontend/src/components/CallTrigger.jsx:51-58 | with no config selected nothing is sent and loading is unchanged; otherwise the form is sent and loading starts |
| CallTriggerScreen.Screen.FinishSubmit | frontend/src/components/CallTrigger.jsx:62-87 | success resets driver and load to empty and the config to the first one's id (or ""), which hides the preview; failure keeps the form; loading ends on every path |
| CallTriggerScreen.FetchedConfigsEnableSubmit | frontend/src/components/CallTrigger.jsx:25-41 | after a non-empty list is fetched and nothing is loading, submit is enabled and the selected config is the list's first |
| DashboardScreen.StatusBadges | frontend/src/components/Dashboard.jsx:54-68 | the four statuses get four distinct labels, and any other text gets the Initiated badge |
| DashboardScreen.SuccessRate | frontend/src/components/Dashboard.jsx:138-140 | 0 without calls; otherwise the integer nearest completed/total * 100, halves rounded up |
| DashboardScreen.SuccessRateIsPercent | frontend/src/components/Dashboard.jsx:138-140 | with no more completed calls than calls, the rate lies in 0..100 |
| DashboardScreen.ExactRate | frontend/src/components/Dashboard.jsx:138-140 | when `completed / total * 100` is a whole number, the rate shown is exactly that number |
| DashboardScreen.BackendRateIsPercent | frontend/src/components/Dashboard.jsx:138-140 | the rate of the counts the backend reports is always a percentage |
| DashboardScreen.Screen.constructor | frontend/src/components/Dashboard.jsx:7-14 | the stats start at zero (rate 0), with no recent calls, loading |
| DashboardScreen.Screen.FetchDashboardData | frontend/src/components/Dashboard.jsx:20-32 | a successful reply replaces the stats and the recent calls together, anything else keeps both; loading ends |
| AppShell.Highlighted | frontend/src/App.jsx:61-66 | a tab's button is highlighted iff its id is the active tab |
| AppShell.TabsShowDistinctViews | frontend/src/App.jsx:12-32 | the four tab ids are distinct and each renders a different screen |
| AppShell.TabOf | frontend/src/App.jsx:12-32 | every screen has a tab that renders it |
| AppShell.UnknownTabShowsDashboard | frontend/src/App.jsx:29-30 | an id that names no tab renders the dashboard |
| AppShell.OneTabHighlighted | frontend/src/App.jsx:61-66 | when a tab is active, exactly its button is highlighted |
| AppShell.App.constructor | frontend/src/App.jsx:10 | the app starts on the dashboard tab |
| AppShell.App.ClickTab | frontend/src/App.jsx:61 | clicking a tab makes its id the active tab, and its button is highlighted |

## Left out

- `frontend/src/services/api.js`, `backend/app/main.py` and `backend/app/database.py` (axios paths, FastAPI/CORS wiring, the Supabase client) are not part of this model. A frontend request's outcome is an `Api.Reply` input.
- Network and external services are not modelled. This covers the HTTP calls to Retell (`create-phone-call`, `get-call`, `list_agents`), the OpenAI chat calls with their prompts, and the JSON decoding of their answers. Their outcomes are inputs: `CreateReply`, `Option<CallDetails>` and `LlmReply`.
- The raw SQL of `get_call_summary` and the `execute_sql` RPC are not modelled. The rows it returns are an input to `CallProcessor.CallSummary` and `Routes.GetCallDetails`.
- ISO-8601 parsing is not modelled. A timestamp is `Absent`, `Unparseable` or a whole number of seconds. `CallProcessor.CalculateDuration` therefore works in whole seconds, and `int()` truncation of fractional seconds is not modelled.
- `toLocaleString` date formatting is not modelled.
- Floating point is not modelled:
  - `interruption_sensitivity`, `backchannel_frequency` and `temperature` are `real` values passed through.
  - `DashboardScreen.SuccessRate` rounds the exact ratio, while `Math.round((c / t) * 100)` rounds a binary float. The two could differ only where the float product misses an exact half.
- Async scheduling is not modelled:
  - `BackgroundTasks` runs the webhook handler after the reply. `Routes.RetellWebhook` returns the queued webhook, which `CallProcessor.HandleRetellWebhook` then takes; when it runs relative to other requests is not modelled.
  - The websocket transport is not modelled. `Routes.LlmWebsocket` takes the messages received before the connection ends.
  - A race between overlapping detail fetches is not modelled, because each handler is a sequence of steps.
- Ordering of `get_agent_configs` by `created_at` is not modelled. The list is returned in table order.
- 500 responses raised by unexpected exceptions inside the handlers are not modelled. Examples are a lost database connection or a `KeyError` on a malformed row. The only modelled exception is the Retell HTTP error of `start_call`.
- JSX layout, CSS, icons other than the badge icons, toasts and the `console.error` logging are not modelled. `window.Retell.connect` after a successful submit is also not modelled: `CallTriggerScreen.Screen.FinishSubmit` resets the form as if that call returned.
- The frontend and the backend disagree in two places, and neither is turned into a proof obligation:
  - `/calls/start` answers `call_id`/`retell_call_id`, but the form reads `token`/`agent_id`.
  - `CallCreate` requires `driver_phone`, but the form never sends it.
- The badge tables are JavaScript object lookups. A status or outcome equal to an inherited property name such as `toString` would find that property; the model treats every such text as unknown.
- `Models.ParseAgentConfigCreate` does not model pydantic's lax coercions: it accepts exactly the JSON type of each field, except that a float field also accepts an integer. Strings of digits are not read as numbers, and numbers are not read as booleans.
- `Models.UpdateValidation` and `Models.UpdateFieldValues` have the same limit for `AgentConfigUpdate`: no lax coercion beyond an integer in the float field.
- `Routes.DashboardStats` states only that the total is the number of calls. The completed, in-progress and failed counts are `CountStatus`, whose meaning is stated by `Routes.CountStatusAppend` and `Routes.StatusCountsPartition`.
- `RetellService.CallPayloadFields` does not model the `.get(..., default)` fallbacks for `interruption_sensitivity` and `backchannel_enabled`. A stored row always has both columns.
- `Routes.StartCall` treats a Retell answer whose `call_id` is null like one without the key, so the row keeps the generated id. Python's `.get("call_id", default)` would store None in that case.
- `Routes.ReplyTo` takes the text of `str(transcript)` as the input `WsMessage.transcriptText`. Python's `repr` of the decoded JSON is not modelled, so nothing ties that text to `transcript`.
- `Text.Lower` maps ASCII letters only; Unicode case mapping is not modelled.
- `Text.Trim` removes a fixed set of white-space characters, the ones JavaScript's `trim()` treats as white space and line terminators.
