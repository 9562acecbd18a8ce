/** Post-call processing and the Retell webhook (backend/app/services/call_processor.py):
    the webhook moves a call from `initiated` to `in_progress` and on to
    `completed`, where the transcript is turned into structured data, a
    result row is stored, and the call row gets its end time and duration. */
module CallProcessor {
  import opened Wrappers
  import opened Models
  import opened Tables
  import OpenAIService
  import RetellService

  // ---------------------------------------------------------------------
  // Duration
  // ---------------------------------------------------------------------

  /** `_calculate_duration`: the whole seconds from start to end, or nothing
      when either end is missing, empty or not a date. */
  function CalculateDuration(start: Timestamp, end: Timestamp): (r: Option<int>)
    ensures r.Some? <==> start.At? && end.At?
    ensures r.Some? ==> start.seconds + r.value == end.seconds
  {
    if start.Absent? || end.Absent? then None
    else if start.Unparseable? || end.Unparseable? then None
    else Some(end.seconds - start.seconds)
  }

  // ---------------------------------------------------------------------
  // Structured data and the result row
  // ---------------------------------------------------------------------

  /** The placeholder stored when Retell has no transcript for the call. */
  const NoTranscriptStructure: Dict :=
    map["call_outcome" := Str("No Transcript Available"),
        "processing_error" := Str("Transcript not available from Retell AI")]

  /** The structured data of a call: the placeholder for a falsy transcript
      (null or empty), otherwise what the extractor for the config's scenario
      type produced. */
  function StructuredData(transcript: Option<string>, scenarioType: string, llm: OpenAIService.LlmReply): (d: Dict)
    ensures transcript.None? || transcript.value == "" ==> d == NoTranscriptStructure
    ensures transcript.Some? && transcript.value != "" ==>
              d == OpenAIService.ProcessTranscript(transcript.value, scenarioType, llm)
  {
    match transcript
    case None => NoTranscriptStructure
    case Some(t) => if t == "" then NoTranscriptStructure else OpenAIService.ProcessTranscript(t, scenarioType, llm)
  }

  /** A null or empty transcript never reaches the extractor: whatever it would
      have answered, the outcome is "No Transcript Available". */
  lemma NoTranscriptSkipsExtractor(scenarioType: string, llm1: OpenAIService.LlmReply, llm2: OpenAIService.LlmReply)
    ensures forall t :: t in {None, Some("")} ==>
              StructuredData(t, scenarioType, llm1) == StructuredData(t, scenarioType, llm2)
    ensures forall t :: t in {None, Some("")} ==>
              StructuredData(t, scenarioType, llm1)["call_outcome"] == Str("No Transcript Available")
  {
  }

  /** The seven outcome columns a result row copies out of the structured data. */
  const OutcomeColumns: seq<ResultColumn> := [
    CallOutcomeCol, DriverStatusCol, CurrentLocationCol, EtaCol,
    EmergencyTypeCol, EmergencyLocationCol, EscalationStatusCol
  ]

  /** The names of the seven outcome columns, in the same order. */
  const OutcomeKeys: seq<string> := [
    "call_outcome", "driver_status", "current_location", "eta",
    "emergency_type", "emergency_location", "escalation_status"
  ]

  /** The summary's `results` and the inserted result row read the same seven fields. */
  lemma OutcomeKeysNameColumns()
    ensures |OutcomeKeys| == |OutcomeColumns|
    ensures forall i :: 0 <= i < |OutcomeKeys| ==> OutcomeKeys[i] == OutcomeColumns[i].Name()
  {
  }

  /** The transcript as a stored value: null when Retell's transcript is null. */
  function TranscriptValue(transcript: Option<string>): Value {
    match transcript
    case None => Null
    case Some(t) => Str(t)
  }

  /** The record `process_completed_call` inserts for the call row `callRowId`. */
  function NewResultRecord(callRowId: string, transcript: Option<string>, sd: Dict): CallResultRecord {
    CallResultRecord(
      callRowId,
      Get(sd, "call_outcome"),
      Get(sd, "driver_status"),
      Get(sd, "current_location"),
      Get(sd, "eta"),
      Get(sd, "emergency_type"),
      Get(sd, "emergency_location"),
      Get(sd, "escalation_status"),
      TranscriptValue(transcript),
      sd,
      "processed")
  }

  /** The result row projects the seven outcome fields out of the structured
      data (null where the data lacks one), keeps the data and the transcript
      whole, refers to the call row, and is marked processed. */
  lemma ResultProjectsOutcome(callRowId: string, transcript: Option<string>, sd: Dict)
    ensures var rec := NewResultRecord(callRowId, transcript, sd);
            && (forall c :: c in OutcomeColumns ==> rec.Col(c) == Get(sd, c.Name()))
            && rec.Col(ResultCallIdCol) == Str(callRowId)
            && (transcript.None? ==> rec.Col(RawTranscriptCol) == Null)
            && (transcript.Some? ==> rec.Col(RawTranscriptCol) == Str(transcript.value))
            && rec.Col(StructuredDataCol) == Object(sd)
            && rec.Col(ProcessingStatusCol) == Str("processed")
  {
    var rec := NewResultRecord(callRowId, transcript, sd);
    forall c | c in OutcomeColumns ensures rec.Col(c) == Get(sd, c.Name()) {
      match c
      case CallOutcomeCol =>
      case DriverStatusCol =>
      case CurrentLocationCol =>
      case EtaCol =>
      case EmergencyTypeCol =>
      case EmergencyLocationCol =>
      case EscalationStatusCol =>
    }
  }

  // ---------------------------------------------------------------------
  // Lookups and row updates
  // ---------------------------------------------------------------------

  /** The call row and the config `process_completed_call` works on: the first
      call whose Retell id is `retellCallId` and the first config it names. */
  function CallAndConfig(calls: seq<CallRow>, configs: seq<AgentConfigRow>, retellCallId: string)
    : (r: Result<(CallRow, AgentConfigRow), string>)
    ensures r.Success? ==> r.value.0 in calls && r.value.0.callId == retellCallId
                           && r.value.1 in configs && r.value.1.id == r.value.0.agentConfigId
    ensures (forall c :: c in calls ==> c.callId != retellCallId) <==> r == Failure("Call not found: " + retellCallId)
    // the call used is the first one with the Retell id, and its config the first with the call's config id
    ensures forall i :: 0 <= i < |calls| && calls[i].callId == retellCallId
                        && (forall j :: 0 <= j < i ==> calls[j].callId != retellCallId) ==>
              && (r.Success? <==> exists k :: 0 <= k < |configs| && configs[k].id == calls[i].agentConfigId)
              && (r.Success? ==> r.value == (calls[i], FindConfig(configs, calls[i].agentConfigId).value))
              && (r.Failure? ==> r.error == "Agent config not found: " + calls[i].agentConfigId)
  {
    match FindFirst(calls, HasCallId(retellCallId))
    case None => Failure("Call not found: " + retellCallId)
    case Some(i) =>
      match FindFirst(configs, IsConfig(calls[i].agentConfigId))
      case None =>
        assert ("Agent config not found: " + calls[i].agentConfigId)[0] == 'A';
        Failure("Agent config not found: " + calls[i].agentConfigId)
      case Some(j) => Success((calls[i], configs[j]))
  }

  /** The `calls` table after `call_started`: every row with that Retell id is
      `in_progress`, nothing else changes. */
  function StartedCalls(calls: seq<CallRow>, callId: string): (r: seq<CallRow>)
    ensures |r| == |calls|
    ensures forall i :: 0 <= i < |calls| ==>
              r[i] == if calls[i].callId == callId then calls[i].(callStatus := InProgress) else calls[i]
  {
    UpdateWhere(calls, HasCallId(callId), (c: CallRow) => c.(callStatus := InProgress))
  }

  /** The `calls` table after a call was processed: the row `rowId` is
      completed, with Retell's end time and the computed duration. */
  function CompletedCalls(calls: seq<CallRow>, rowId: string, details: RetellService.CallDetails): (r: seq<CallRow>)
    ensures |r| == |calls|
    ensures forall i :: 0 <= i < |calls| ==>
              r[i] == if calls[i].id == rowId
                      then calls[i].(callStatus := Completed, endedAt := details.endTimestamp,
                                     duration := CalculateDuration(details.startTimestamp, details.endTimestamp))
                      else calls[i]
  {
    UpdateWhere(calls, HasRowId(rowId),
                (c: CallRow) => c.(callStatus := Completed, endedAt := details.endTimestamp,
                                   duration := CalculateDuration(details.startTimestamp, details.endTimestamp)))
  }

  /** The `call_results` table after `call_analyzed`: the results of call row
      `rowId` carry the new transcript. */
  function AnalyzedResults(results: seq<CallResultRow>, rowId: string, transcript: string): (r: seq<CallResultRow>)
    ensures |r| == |results|
    ensures forall i :: 0 <= i < |results| ==>
              r[i] == if results[i].rec.callId == rowId
                      then results[i].(rec := results[i].rec.(rawTranscript := Str(transcript)))
                      else results[i]
  {
    UpdateWhere(results, (x: CallResultRow) => x.rec.callId == rowId,
                (x: CallResultRow) => x.(rec := x.rec.(rawTranscript := Str(transcript))))
  }

  /** The three row updates change no row id. */
  lemma {:induction false} UpdatesKeepIds(calls: seq<CallRow>, results: seq<CallResultRow>, callId: string,
                                          rowId: string, details: RetellService.CallDetails, transcript: string)
    ensures forall i :: 0 <= i < |calls| ==> StartedCalls(calls, callId)[i].id == calls[i].id
    ensures forall i :: 0 <= i < |calls| ==> CompletedCalls(calls, rowId, details)[i].id == calls[i].id
    ensures forall i :: 0 <= i < |results| ==> AnalyzedResults(results, rowId, transcript)[i].id == results[i].id
  {
  }

  // ---------------------------------------------------------------------
  // process_completed_call
  // ---------------------------------------------------------------------

  /** The dict `process_completed_call` returns. */
  datatype ProcessOutcome =
    | Processed(callResultId: string, structuredData: Dict, transcript: Option<string>)
    | ProcessFailed(error: string)

  /** `process_completed_call`, with the Retell call details (`None` when the
      request failed) and the extractor's reply as inputs. */
  method ProcessCompletedCall(db: Db, callId: string, retellCallId: string,
                              details: Option<RetellService.CallDetails>, llm: OpenAIService.LlmReply)
    returns (r: ProcessOutcome)
    requires db.Valid()
    modifies db
    ensures db.Valid()
    ensures db.agentConfigs == old(db.agentConfigs)
    // the three ways to fail, in the order the source checks them; a failure stores nothing
    ensures CallAndConfig(old(db.calls), old(db.agentConfigs), retellCallId).Failure? ==>
              r == ProcessFailed(CallAndConfig(old(db.calls), old(db.agentConfigs), retellCallId).error)
    ensures CallAndConfig(old(db.calls), old(db.agentConfigs), retellCallId).Success? && details.None? ==>
              r == ProcessFailed("Could not fetch call details from Retell: " + retellCallId)
    ensures r.ProcessFailed? ==> db.calls == old(db.calls) && db.callResults == old(db.callResults)
                                 && db.nextId == old(db.nextId)
    // on success: one result row for the call, and the call is completed
    ensures r.Processed? <==> CallAndConfig(old(db.calls), old(db.agentConfigs), retellCallId).Success? && details.Some?
    ensures r.Processed? ==>
              var (call, config) := CallAndConfig(old(db.calls), old(db.agentConfigs), retellCallId).value;
              && r.transcript == details.value.transcript
              && r.structuredData == StructuredData(r.transcript, config.scenarioType.Name(), llm)
              && r.callResultId == RowId(old(db.nextId))
              && db.callResults == old(db.callResults)
                                   + [CallResultRow(r.callResultId, NewResultRecord(call.id, r.transcript, r.structuredData))]
              && db.calls == CompletedCalls(old(db.calls), call.id, details.value)
  {
    var found := CallAndConfig(db.calls, db.agentConfigs, retellCallId);
    if found.Failure? {
      return ProcessFailed(found.error);
    }
    var (call, config) := found.value;
    if details.None? {
      return ProcessFailed("Could not fetch call details from Retell: " + retellCallId);
    }
    var transcript := details.value.transcript;
    var sd := StructuredData(transcript, config.scenarioType.Name(), llm);
    var row := db.InsertCallResult(NewResultRecord(call.id, transcript, sd));
    UpdatesKeepIds(db.calls, db.callResults, "", call.id, details.value, "");
    db.SetCalls(CompletedCalls(db.calls, call.id, details.value));
    r := Processed(row.id, sd, transcript);
  }

  // ---------------------------------------------------------------------
  // handle_retell_webhook
  // ---------------------------------------------------------------------

  /** The fields of a webhook body the handler reads; a missing or null field is `None`. */
  datatype Webhook = Webhook(event: string, callId: Option<string>, transcript: Option<string>)

  /** The dict `handle_retell_webhook` returns. */
  datatype WebhookReply =
    | Acknowledged(message: string)
    | Refused(error: string)
    | CallProcessed(outcome: ProcessOutcome)
  {
    predicate Succeeded() {
      Acknowledged? || (CallProcessed? && outcome.Processed?)
    }
  }

  /** `handle_retell_webhook`, for an event whose processing needs the Retell
      call details and the extractor's reply (used by `call_ended` only). */
  method HandleRetellWebhook(db: Db, w: Webhook, details: Option<RetellService.CallDetails>,
                             llm: OpenAIService.LlmReply)
    returns (r: WebhookReply)
    requires db.Valid()
    modifies db
    ensures db.Valid()
    ensures db.agentConfigs == old(db.agentConfigs)
    // without a call id nothing is looked at or changed
    ensures w.callId.None? || w.callId == Some("") ==>
              r == Refused("No call_id in webhook data") && unchanged(db)
    ensures w.callId.Some? && w.callId.value != "" ==>
              var id := w.callId.value;
              if w.event == "call_started" then
                && r == Acknowledged("Call started")
                && db.calls == StartedCalls(old(db.calls), id)
                && db.callResults == old(db.callResults) && db.nextId == old(db.nextId)
              else if w.event == "call_ended" then
                // `process_completed_call(call_id, call_id)`: its reply is passed on
                var found := CallAndConfig(old(db.calls), old(db.agentConfigs), id);
                && r.CallProcessed?
                && (r.outcome.Processed? <==> found.Success? && details.Some?)
                && (found.Failure? ==> r.outcome == ProcessFailed(found.error))
                && (found.Success? && details.None? ==>
                      r.outcome == ProcessFailed("Could not fetch call details from Retell: " + id))
                && (r.outcome.ProcessFailed? ==>
                      db.calls == old(db.calls) && db.callResults == old(db.callResults)
                      && db.nextId == old(db.nextId))
                && (r.outcome.Processed? ==>
                      var (call, config) := found.value;
                      && r.outcome.transcript == details.value.transcript
                      && r.outcome.structuredData == StructuredData(r.outcome.transcript, config.scenarioType.Name(), llm)
                      && r.outcome.callResultId == RowId(old(db.nextId))
                      && db.callResults == old(db.callResults)
                           + [CallResultRow(r.outcome.callResultId,
                                            NewResultRecord(call.id, r.outcome.transcript, r.outcome.structuredData))]
                      && db.calls == CompletedCalls(old(db.calls), call.id, details.value))
              else if w.event == "call_analyzed" then
                && r == Acknowledged("Call analyzed")
                && db.calls == old(db.calls) && db.nextId == old(db.nextId)
                && db.callResults ==
                   match (w.transcript, FindFirst(old(db.calls), HasCallId(id)))
                   case (Some(t), Some(i)) =>
                     if t != "" then AnalyzedResults(old(db.callResults), old(db.calls)[i].id, t)
                     else old(db.callResults)
                   case _ => old(db.callResults)
              else
                && r == Acknowledged("Unhandled event type: " + w.event)
                && unchanged(db)
  {
    if w.callId.None? || w.callId.value == "" {
      return Refused("No call_id in webhook data");
    }
    var id := w.callId.value;
    if w.event == "call_started" {
      UpdatesKeepIds(db.calls, db.callResults, id, "", RetellService.CallDetails(None, Absent, Absent), "");
      db.SetCalls(StartedCalls(db.calls, id));
      r := Acknowledged("Call started");
    } else if w.event == "call_ended" {
      var outcome := ProcessCompletedCall(db, id, id, details, llm);
      r := CallProcessed(outcome);
    } else if w.event == "call_analyzed" {
      var transcript := w.transcript.GetOr("");
      if transcript != "" {
        var found := FindFirst(db.calls, HasCallId(id));
        if found.Some? {
          var rowId := db.calls[found.value].id;
          UpdatesKeepIds(db.calls, db.callResults, id, rowId, RetellService.CallDetails(None, Absent, Absent), transcript);
          db.SetCallResults(AnalyzedResults(db.callResults, rowId, transcript));
        }
      }
      r := Acknowledged("Call analyzed");
    } else {
      r := Acknowledged("Unhandled event type: " + w.event);
    }
  }

  // ---------------------------------------------------------------------
  // get_call_summary
  // ---------------------------------------------------------------------

  /** The columns of the joined row that `call_info` reads with `[...]`, in order. */
  const CallInfoKeys: seq<string> := [
    "id", "driver_name", "driver_phone", "load_number", "agent_name",
    "scenario_type", "call_status", "started_at", "ended_at", "duration"
  ]

  /** The first of `keys` the row lacks: the `KeyError` the source would raise. */
  function FirstMissing(row: Dict, keys: seq<string>): (r: Option<string>)
    ensures r.None? <==> forall k :: k in keys ==> k in row
    ensures r.Some? ==> r.value in keys && r.value !in row
    decreases |keys|
  {
    if keys == [] then None
    else if keys[0] !in row then Some(keys[0])
    else FirstMissing(row, keys[1..])
  }

  /** The key `FirstMissing` reports is the first, in order, that the row
      lacks: the one whose lookup raises first. */
  lemma {:induction false} FirstMissingIsFirst(row: Dict, keys: seq<string>)
    requires FirstMissing(row, keys).Some?
    ensures exists i :: 0 <= i < |keys| && keys[i] == FirstMissing(row, keys).value
                        && forall j :: 0 <= j < i ==> keys[j] in row
    decreases |keys|
  {
    if keys[0] in row {
      FirstMissingIsFirst(row, keys[1..]);
      var i :| 0 <= i < |keys[1..]| && keys[1..][i] == FirstMissing(row, keys).value
               && forall j :: 0 <= j < i ==> keys[1..][j] in row;
      assert keys[i + 1] == FirstMissing(row, keys).value;
      assert forall j :: 0 <= j < i + 1 ==> keys[j] in row by {
        forall j | 0 <= j < i + 1 ensures keys[j] in row {
          if j > 0 {
            assert keys[j] == keys[1..][j - 1];
          }
        }
      }
    } else {
      assert keys[0] == FirstMissing(row, keys).value;
    }
  }

  /** The `call_info` part of the summary: the call's own columns, the agent's name and scenario. */
  function CallInfo(row: Dict): (d: Dict)
    requires forall k :: k in CallInfoKeys ==> k in row
    ensures d.Keys == set k | k in CallInfoKeys
    ensures forall k :: k in CallInfoKeys ==> d[k] == row[k]
  {
    map k | k in CallInfoKeys :: row[k]
  }

  /** The `results` part of the summary: the seven outcome columns, null where the row lacks one. */
  function Results(row: Dict): (d: Dict)
    ensures d.Keys == set k | k in OutcomeKeys
    ensures forall k :: k in OutcomeKeys ==> d[k] == Get(row, k)
  {
    map k | k in OutcomeKeys :: Get(row, k)
  }

  /** The summary of a joined row that has every `call_info` column. */
  function SummaryOf(row: Dict): (d: Dict)
    requires forall k :: k in CallInfoKeys ==> k in row
    ensures "error" !in d
  {
    map[
      "call_info" := Object(CallInfo(row)),
      "results" := Object(Results(row)),
      "transcript" := Get(row, "raw_transcript"),
      "structured_data" := Get(row, "structured_data")
    ]
  }

  /** The error dict the `except` clause returns, with the text `str()` gives a `KeyError`. */
  function KeyErrorReply(k: string): (d: Dict)
    ensures "error" in d
  {
    map["error" := Str("'" + k + "'")]
  }

  /** `get_call_summary` over the rows the joined query returned: an error for
      no row or a column the row lacks, otherwise the call info, the seven
      results, the transcript and the structured data of the first row. */
  function CallSummary(rows: seq<Dict>): (r: Dict)
    ensures rows == [] ==> r == map["error" := Str("Call not found")]
    ensures rows != [] ==> ("error" in r <==> exists k :: k in CallInfoKeys && k !in rows[0])
    // the `KeyError` of the first `call_info` column the row lacks
    ensures rows != [] && "error" in r ==>
              && FirstMissing(rows[0], CallInfoKeys).Some?
              && r == KeyErrorReply(FirstMissing(rows[0], CallInfoKeys).value)
    ensures rows != [] && "error" !in r ==>
              && (forall k :: k in CallInfoKeys ==> k in rows[0])
              && r == SummaryOf(rows[0])
  {
    if rows == [] then map["error" := Str("Call not found")]
    else
      match FirstMissing(rows[0], CallInfoKeys)
      case Some(k) =>
        KeyErrorReply(k)
      case None =>
        SummaryOf(rows[0])
  }
}
