/** The HTTP and websocket routes of the backend (backend/app/routes.py): the
    agent-config CRUD rules, starting a call, the result and summary lookups,
    the webhook entry point, the dashboard statistics and the reply rule of
    the LLM websocket. Requests arrive already validated into the request
    models; the Supabase tables are the `Db` store. */
module Routes {
  import opened Wrappers
  import opened Models
  import opened Tables
  import Text
  import OpenAIService
  import RetellService
  import CallProcessor

  /** An `HTTPException`: the status code and its `detail`. */
  datatype HttpError = HttpError(status: int, detail: string)

  const ConfigNotFound: HttpError := HttpError(404, "Agent config not found")

  // ---------------------------------------------------------------------
  // Paging (`.limit(n)`)
  // ---------------------------------------------------------------------

  /** `.limit(n)`. */
  function Take<T>(s: seq<T>, n: nat): (r: seq<T>)
    ensures |r| == if |s| <= n then |s| else n
    ensures r == s[..|r|]
  {
    if |s| <= n then s else s[..n]
  }

  // ---------------------------------------------------------------------
  // Agent configs
  // ---------------------------------------------------------------------

  /** `POST /agent-configs`: the validated request becomes a new row. */
  method CreateAgentConfig(db: Db, config: AgentConfigCreate, now: int) returns (row: AgentConfigRow)
    requires db.Valid()
    modifies db
    ensures db.Valid()
    ensures row == NewConfigRow(RowId(old(db.nextId)), config, now)
    ensures db.agentConfigs == old(db.agentConfigs) + [row]
    ensures db.calls == old(db.calls) && db.callResults == old(db.callResults)
  {
    row := db.InsertAgentConfig(config, now);
  }

  /** A config created from the required fields alone is stored with the
      model's defaults: no triggers, three retries, both flags on. */
  lemma CreatedWithDefaults(id: string, name: string, scenario: ScenarioType, prompt: string, flow: string, now: int)
    ensures var body := map["name" := Str(name), "scenario_type" := Str(scenario.Name()),
                            "system_prompt" := Str(prompt), "conversation_flow" := Str(flow)];
            var row := NewConfigRow(id, ParseAgentConfigCreate(body).value, now);
            && ParseAgentConfigCreate(body).Success?
            && row.emergencyTriggers == [] && row.maxRetries == 3 && row.interruptionSensitivity == 0.5
            && row.backchannelEnabled && row.fillerWordsEnabled && row.updatedAt == None
            && row.name == name && row.scenarioType == scenario
  {
    CreateDefaults(name, scenario, prompt, flow);
  }

  /** `GET /agent-configs/{id}`: the row with that id, or 404. */
  method GetAgentConfig(db: Db, id: string) returns (r: Result<AgentConfigRow, HttpError>)
    ensures r.Success? <==> exists i :: 0 <= i < |db.agentConfigs| && db.agentConfigs[i].id == id
    ensures r.Success? ==> r.value.id == id && r.value in db.agentConfigs
    // in a valid store the answer is the only config with the id
    ensures r.Success? && db.Valid() ==> forall c :: c in db.agentConfigs && c.id == id ==> c == r.value
    ensures r.Failure? ==> r.error == ConfigNotFound
  {
    var found := FindFirst(db.agentConfigs, IsConfig(id));
    if found.None? {
      return Failure(ConfigNotFound);
    }
    r := Success(db.agentConfigs[found.value]);
    if db.Valid() {
      forall c | c in db.agentConfigs && c.id == id ensures c == r.value {
        OnlyConfigWithId(db.agentConfigs, id, c);
      }
    }
  }

  /** `update_data`: the request fields that are not None, plus `updated_at`. */
  function UpdateData(u: AgentConfigUpdate, now: int): (d: map<Column, Value>)
    ensures forall c :: c in d <==> c == UpdatedAtCol || (c in UpdateColumns && u.Field(c) != Null)
    ensures d[UpdatedAtCol] == Int(now)
    ensures forall c :: c in d && c != UpdatedAtCol ==> d[c] == u.Field(c)
  {
    (map c | c in UpdateColumns && u.Field(c) != Null :: u.Field(c))[UpdatedAtCol := Int(now)]
  }

  /** An update never writes the scenario type, the id or the creation time,
      and an update that sets nothing writes `updated_at` alone. */
  lemma UpdateDataKeys(u: AgentConfigUpdate, now: int)
    ensures ScenarioTypeCol !in UpdateData(u, now)
    ensures IdCol !in UpdateData(u, now) && CreatedAtCol !in UpdateData(u, now)
    ensures UpdateData(NoChanges, now) == map[UpdatedAtCol := Int(now)]
  {
    var d := UpdateData(NoChanges, now);
    assert forall c :: c in d <==> c == UpdatedAtCol by {
      forall c ensures c in d <==> c == UpdatedAtCol {
        assert NoChanges.Field(c) == Null;
      }
    }
  }

  /** The stored row after the update: every field the request sets, and `updated_at`. */
  function ApplyUpdate(row: AgentConfigRow, u: AgentConfigUpdate, now: int): AgentConfigRow {
    row.(name := u.name.GetOr(row.name),
         systemPrompt := u.systemPrompt.GetOr(row.systemPrompt),
         conversationFlow := u.conversationFlow.GetOr(row.conversationFlow),
         emergencyTriggers := u.emergencyTriggers.GetOr(row.emergencyTriggers),
         maxRetries := u.maxRetries.GetOr(row.maxRetries),
         interruptionSensitivity := u.interruptionSensitivity.GetOr(row.interruptionSensitivity),
         backchannelEnabled := u.backchannelEnabled.GetOr(row.backchannelEnabled),
         fillerWordsEnabled := u.fillerWordsEnabled.GetOr(row.fillerWordsEnabled),
         updatedAt := Some(now))
  }

  /** The updated row is the stored row with `update_data` written over it:
      a column in `update_data` takes the value written there, every other
      column (the scenario type, the id and the creation time among them)
      keeps its value. */
  lemma ApplyUpdateWritesUpdateData(row: AgentConfigRow, u: AgentConfigUpdate, now: int, c: Column)
    ensures var d := UpdateData(u, now);
            ApplyUpdate(row, u, now).Col(c) == if c in d then d[c] else row.Col(c)
    ensures ApplyUpdate(row, u, now).scenarioType == row.scenarioType
    ensures ApplyUpdate(row, u, now).id == row.id && ApplyUpdate(row, u, now).createdAt == row.createdAt
  {
    var d := UpdateData(u, now);
    match c
    case NameCol =>
    case SystemPromptCol =>
    case ConversationFlowCol =>
    case EmergencyTriggersCol =>
    case MaxRetriesCol =>
    case InterruptionSensitivityCol =>
    case BackchannelEnabledCol =>
    case FillerWordsEnabledCol =>
    case _ =>
  }

  /** `PUT /agent-configs/{id}`: every row with that id gets the update; the
      answer is the first updated row, or 404 when no row matched. */
  method UpdateAgentConfig(db: Db, id: string, u: AgentConfigUpdate, now: int) returns (r: Result<AgentConfigRow, HttpError>)
    requires db.Valid()
    modifies db
    ensures db.Valid()
    ensures db.agentConfigs == UpdateWhere(old(db.agentConfigs), IsConfig(id),
                                           (c: AgentConfigRow) => ApplyUpdate(c, u, now))
    ensures db.calls == old(db.calls) && db.callResults == old(db.callResults) && db.nextId == old(db.nextId)
    ensures r.Success? <==> exists i :: 0 <= i < |old(db.agentConfigs)| && old(db.agentConfigs)[i].id == id
    ensures r.Success? ==> exists i :: 0 <= i < |old(db.agentConfigs)| && old(db.agentConfigs)[i].id == id
                                       && r.value == ApplyUpdate(old(db.agentConfigs)[i], u, now)
    // the update of the first config with the id, which `Db.Valid` makes the only one
    ensures r.Success? ==> r.value == ApplyUpdate(FindConfig(old(db.agentConfigs), id).value, u, now)
    ensures r.Failure? ==> r.error == ConfigNotFound && db.agentConfigs == old(db.agentConfigs)
  {
    var found := FindFirst(db.agentConfigs, IsConfig(id));
    db.agentConfigs := UpdateWhere(db.agentConfigs, IsConfig(id), (c: AgentConfigRow) => ApplyUpdate(c, u, now));
    if found.None? {
      assert db.agentConfigs == old(db.agentConfigs);
      return Failure(ConfigNotFound);
    }
    r := Success(db.agentConfigs[found.value]);
  }

  /** `DELETE /agent-configs/{id}`: the rows with that id are gone; the answer
      is the same whether or not one existed. */
  method DeleteAgentConfig(db: Db, id: string) returns (message: string)
    requires db.Valid()
    modifies db
    ensures db.Valid()
    ensures db.agentConfigs == DeleteWhere(old(db.agentConfigs), IsConfig(id))
    ensures forall c :: c in db.agentConfigs ==> c.id != id
    ensures db.calls == old(db.calls) && db.callResults == old(db.callResults) && db.nextId == old(db.nextId)
    ensures message == "Agent config deleted"
  {
    DeleteKeepsIdsDistinct(db.agentConfigs, IsConfig(id));
    db.agentConfigs := DeleteWhere(db.agentConfigs, IsConfig(id));
    forall i | 0 <= i < |db.agentConfigs| ensures IdBelow(db.agentConfigs[i].id, db.nextId) {
      assert db.agentConfigs[i] in old(db.agentConfigs);
    }
    message := "Agent config deleted";
  }

  // ---------------------------------------------------------------------
  // Starting a call
  // ---------------------------------------------------------------------

  /** The answer of `POST /calls/start`. */
  datatype StartCallResponse = StartCallResponse(callId: string, retellCallId: Option<string>, message: string)

  /** The record `start_call` inserts: a fresh call id, the request's driver
      and load, and status `initiated`. */
  function NewCallRecord(req: CallCreate, generatedId: string): (rec: CallRecord)
    ensures rec.callStatus == Initiated
    ensures rec.agentConfigId == req.agentConfigId && rec.driverName == req.driverName
    ensures rec.driverPhone == req.driverPhone && rec.loadNumber == req.loadNumber
    ensures rec.callId == generatedId
  {
    CallRecord(generatedId, req.agentConfigId, req.driverName, req.driverPhone, req.loadNumber, Initiated)
  }

  /** `POST /calls/start`, with the generated uuid, the clock and Retell's
      answer as inputs. `sent` is the `create_phone_call` request made, if any. */
  method StartCall(db: Db, req: CallCreate, generatedId: string, now: int, reply: RetellService.CreateReply)
    returns (r: Result<StartCallResponse, HttpError>, sent: Option<RetellService.PhoneCallRequest>)
    requires db.Valid()
    modifies db
    ensures db.Valid()
    ensures db.agentConfigs == old(db.agentConfigs) && db.callResults == old(db.callResults)
    // an unknown config: 404, no call row, and Retell is not asked
    ensures FindConfig(old(db.agentConfigs), req.agentConfigId).None? <==> r == Failure(ConfigNotFound)
    ensures FindConfig(old(db.agentConfigs), req.agentConfigId).None? ==> db.calls == old(db.calls) && sent.None?
    // otherwise one initiated row is added, and Retell is asked to call the driver
    ensures FindConfig(old(db.agentConfigs), req.agentConfigId).Some? ==>
              sent == Some(RetellService.PhoneCallRequest(req.driverPhone,
                             FindConfig(old(db.agentConfigs), req.agentConfigId).value,
                             RetellService.CallContext(req.driverName, req.loadNumber)))
    ensures FindConfig(old(db.agentConfigs), req.agentConfigId).Some? ==>
              var row := NewCallRow(RowId(old(db.nextId)), NewCallRecord(req, generatedId), now);
              && (reply.HttpFailed? ==>
                    && r == Failure(HttpError(500, "Failed to create call: " + reply.message))
                    && db.calls == old(db.calls) + [row])
              && (reply.Created? ==>
                    && r == Success(StartCallResponse(row.id, reply.callId, "Call started successfully"))
                    && db.calls == old(db.calls) + [row.(callId := reply.callId.GetOr(generatedId))])
  {
    sent := None;
    var config := FindConfig(db.agentConfigs, req.agentConfigId);
    if config.None? {
      return Failure(ConfigNotFound), sent;
    }
    var row := db.InsertCall(NewCallRecord(req, generatedId), now);
    var ctx := RetellService.CallContext(req.driverName, req.loadNumber);
    sent := Some(RetellService.PhoneCallRequest(req.driverPhone, config.value, ctx));
    var created := RetellService.CreatePhoneCall(reply);
    if created.Failure? {
      return Failure(HttpError(500, created.error)), sent;
    }
    var newCallId := created.value.GetOr(generatedId);
    ghost var before := db.calls;
    db.calls := UpdateWhere(db.calls, HasRowId(row.id), (c: CallRow) => c.(callId := newCallId));
    assert db.calls == before[..|before| - 1] + [row.(callId := newCallId)] by {
      assert forall i :: 0 <= i < |before| - 1 ==> before[i].id != row.id;
    }
    r := Success(StartCallResponse(row.id, created.value, "Call started successfully"));
  }

  // ---------------------------------------------------------------------
  // Results, summary and webhook routes
  // ---------------------------------------------------------------------

  /** `GET /calls/{call_id}/results`: the first result row of that call row, or 404. */
  method GetCallResults(db: Db, callId: string) returns (r: Result<CallResultRow, HttpError>)
    ensures r.Success? <==> exists i :: 0 <= i < |db.callResults| && db.callResults[i].rec.callId == callId
    ensures r.Success? ==> r.value in db.callResults && r.value.rec.callId == callId
    ensures r.Failure? ==> r.error == HttpError(404, "Call results not found")
  {
    var found := FindFirst(db.callResults, (x: CallResultRow) => x.rec.callId == callId);
    if found.None? {
      return Failure(HttpError(404, "Call results not found"));
    }
    return Success(db.callResults[found.value]);
  }

  /** `GET /calls/{call_id}`: the summary, or 404 with its error text. */
  function GetCallDetails(rows: seq<Dict>): (r: Result<Dict, HttpError>)
    ensures rows == [] ==> r == Failure(HttpError(404, "Call not found"))
    ensures r.Failure? ==> r.error.status == 404
    ensures rows != [] ==> (r.Success? <==> forall k :: k in CallProcessor.CallInfoKeys ==> k in rows[0])
    // the detail of a missing column is the `KeyError` text of the first one the row lacks
    ensures rows != [] && r.Failure? ==>
              && CallProcessor.FirstMissing(rows[0], CallProcessor.CallInfoKeys).Some?
              && r.error.detail == "'" + CallProcessor.FirstMissing(rows[0], CallProcessor.CallInfoKeys).value + "'"
    // success answers the summary
    ensures r.Success? ==> r.value == CallProcessor.SummaryOf(rows[0])
  {
    var summary := CallProcessor.CallSummary(rows);
    if "error" in summary then
      Failure(HttpError(404, if summary["error"].Str? then summary["error"].s else ""))
    else Success(summary)
  }

  /** The answer of `POST /retell-webhook` and the handler call it queues. */
  datatype WebhookAck = WebhookAck(success: bool, message: string, queued: CallProcessor.Webhook)

  /** `POST /retell-webhook`: the body is queued, unchanged, for
      `handle_retell_webhook`, which runs once the answer has been sent. The
      route reads and writes no table, and answers "Webhook received" to
      every webhook. */
  function RetellWebhook(w: CallProcessor.Webhook): (r: WebhookAck)
    ensures r.success && r.message == "Webhook received"
    ensures r.queued == w
  {
    WebhookAck(true, "Webhook received", w)
  }

  // ---------------------------------------------------------------------
  // Listings and the dashboard
  // ---------------------------------------------------------------------

  /** A call joined with its agent config (`agent_configs!inner(...)`). */
  datatype CallListing = CallListing(call: CallRow, agentName: string, scenarioType: ScenarioType)

  /** The config a call names, if it exists. */
  function AgentOf(c: CallRow, configs: seq<AgentConfigRow>): (r: Option<AgentConfigRow>)
    ensures r.Some? ==> r.value in configs && r.value.id == c.agentConfigId
    ensures r.None? ==> forall k :: k in configs ==> k.id != c.agentConfigId
  {
    match FindFirst(configs, IsConfig(c.agentConfigId))
    case Some(j) => Some(configs[j])
    case None => None
  }

  /** `x` is a call joined with the config it names: that config exists and
      `x` carries its name and scenario type. */
  predicate Joined(x: CallListing, configs: seq<AgentConfigRow>) {
    AgentOf(x.call, configs).Some?
    && x.agentName == AgentOf(x.call, configs).value.name
    && x.scenarioType == AgentOf(x.call, configs).value.scenarioType
  }

  /** The inner join: calls without an existing config are dropped, in table order. */
  function JoinConfigs(calls: seq<CallRow>, configs: seq<AgentConfigRow>): (r: seq<CallListing>)
    ensures |r| <= |calls|
    ensures forall x :: x in r ==> x.call in calls && Joined(x, configs)
    ensures forall c :: c in calls && AgentOf(c, configs).Some? ==>
              CallListing(c, AgentOf(c, configs).value.name, AgentOf(c, configs).value.scenarioType) in r
    decreases |calls|
  {
    if calls == [] then []
    else
      var rest := JoinConfigs(calls[1..], configs);
      assert forall c :: c in calls ==> c == calls[0] || c in calls[1..];
      match AgentOf(calls[0], configs)
      case None => rest
      case Some(a) => [CallListing(calls[0], a.name, a.scenarioType)] + rest
  }

  /** Each joined call appears once per occurrence of its call row, and
      nothing else appears. */
  lemma {:induction false} JoinCounts(calls: seq<CallRow>, configs: seq<AgentConfigRow>, x: CallListing)
    ensures multiset(JoinConfigs(calls, configs))[x] == if Joined(x, configs) then multiset(calls)[x.call] else 0
    decreases |calls|
  {
    if calls != [] {
      assert calls == [calls[0]] + calls[1..];
      JoinCounts(calls[1..], configs, x);
    }
  }

  // ---------------------------------------------------------------------
  // Ordering (`.order("started_at", desc=True)`)
  // ---------------------------------------------------------------------

  ghost predicate SortedDesc(s: seq<CallListing>) {
    forall i, j :: 0 <= i < j < |s| ==> s[i].call.startedAt >= s[j].call.startedAt
  }

  /** Puts `x` before the first listing that did not start later. */
  function InsertDesc(x: CallListing, s: seq<CallListing>): (r: seq<CallListing>)
    ensures multiset(r) == multiset(s) + multiset{x}
    ensures |r| == |s| + 1
    ensures forall y :: y in r ==> y == x || y in s
    decreases |s|
  {
    if s == [] then [x]
    else if x.call.startedAt >= s[0].call.startedAt then [x] + s
    else
      assert s == [s[0]] + s[1..];
      [s[0]] + InsertDesc(x, s[1..])
  }

  lemma {:induction false} InsertDescSorted(x: CallListing, s: seq<CallListing>)
    requires SortedDesc(s)
    ensures SortedDesc(InsertDesc(x, s))
    decreases |s|
  {
    if s != [] && x.call.startedAt < s[0].call.startedAt {
      var rest := InsertDesc(x, s[1..]);
      InsertDescSorted(x, s[1..]);
      HeadStartsLatest(x, s);
      assert InsertDesc(x, s) == [s[0]] + rest;
      ConsSorted(s[0], rest);
    }
  }

  /** A listing that started no earlier than every listing of a sorted list can go in front. */
  lemma ConsSorted(a: CallListing, t: seq<CallListing>)
    requires SortedDesc(t)
    requires forall j :: 0 <= j < |t| ==> a.call.startedAt >= t[j].call.startedAt
    ensures SortedDesc([a] + t)
  {
    var r := [a] + t;
    forall i, j | 0 <= i < j < |r| ensures r[i].call.startedAt >= r[j].call.startedAt {
      assert r[j] == t[j - 1];
      if i > 0 {
        assert r[i] == t[i - 1];
      }
    }
  }

  /** Inserting a later-started listing into the tail keeps the head the newest. */
  lemma HeadStartsLatest(x: CallListing, s: seq<CallListing>)
    requires SortedDesc(s) && s != [] && x.call.startedAt < s[0].call.startedAt
    ensures forall j :: 0 <= j < |InsertDesc(x, s[1..])| ==>
              s[0].call.startedAt >= InsertDesc(x, s[1..])[j].call.startedAt
  {
    var tail := s[1..];
    var rest := InsertDesc(x, tail);
    forall j | 0 <= j < |rest| ensures s[0].call.startedAt >= rest[j].call.startedAt {
      var y := rest[j];
      assert y in rest;
      if y != x {
        var k :| 0 <= k < |tail| && tail[k] == y;
        assert s[k + 1] == y;
      }
    }
  }

  /** The listings ordered by start time, newest first (insertion sort). */
  function SortDesc(s: seq<CallListing>): (r: seq<CallListing>)
    ensures multiset(r) == multiset(s)
    decreases |s|
  {
    if s == [] then []
    else
      assert s == [s[0]] + s[1..];
      InsertDesc(s[0], SortDesc(s[1..]))
  }

  lemma {:induction false} SortDescSorted(s: seq<CallListing>)
    ensures SortedDesc(SortDesc(s))
    decreases |s|
  {
    if s != [] {
      SortDescSorted(s[1..]);
      InsertDescSorted(s[0], SortDesc(s[1..]));
    }
  }

  /** `GET /calls`: every call with its agent, newest first. */
  function ListCalls(calls: seq<CallRow>, configs: seq<AgentConfigRow>): (r: seq<CallListing>)
    ensures multiset(r) == multiset(JoinConfigs(calls, configs))
  {
    SortDesc(JoinConfigs(calls, configs))
  }

  /** The `recent_calls` of the dashboard: the five newest calls that have an agent. */
  function RecentCalls(calls: seq<CallRow>, configs: seq<AgentConfigRow>): (r: seq<CallListing>)
    ensures |r| <= 5
  {
    Take(ListCalls(calls, configs), 5)
  }

  /** The first `n` of a list sorted newest first: as many as there are up
      to `n`, and none of the rest started later than one of them. */
  lemma {:induction false} TakeNewest(s: seq<CallListing>, n: nat)
    requires SortedDesc(s)
    ensures var r := Take(s, n);
            && SortedDesc(r)
            && multiset(r) <= multiset(s)
            && forall x, y :: x in r && y in multiset(s) - multiset(r) ==> x.call.startedAt >= y.call.startedAt
  {
    var r := Take(s, n);
    var m := |r|;
    assert s == r + s[m..];
    assert multiset(s) - multiset(r) == multiset(s[m..]);
    PrefixBeforeRest(s, m);
  }

  /** In a list sorted newest first, the first `m` are sorted too and none of
      the rest started later than one of them. */
  lemma PrefixBeforeRest(s: seq<CallListing>, m: nat)
    requires SortedDesc(s) && m <= |s|
    ensures SortedDesc(s[..m])
    ensures forall x, y :: x in s[..m] && y in multiset(s[m..]) ==> x.call.startedAt >= y.call.startedAt
  {
    forall x, y | x in s[..m] && y in multiset(s[m..]) ensures x.call.startedAt >= y.call.startedAt {
      var k :| m <= k < |s| && s[k] == y;
      var j :| 0 <= j < m && s[j] == x;
    }
  }

  /** The recent calls are newest first, as many as there are up to five, and
      no call left out started later than one that is listed. */
  lemma RecentCallsAreNewest(calls: seq<CallRow>, configs: seq<AgentConfigRow>)
    ensures var r, all := RecentCalls(calls, configs), JoinConfigs(calls, configs);
            && SortedDesc(r)
            && |r| == (if |all| < 5 then |all| else 5)
            && multiset(r) <= multiset(all)
            && forall x, y :: x in r && y in multiset(all) - multiset(r) ==> x.call.startedAt >= y.call.startedAt
  {
    var s, all := ListCalls(calls, configs), JoinConfigs(calls, configs);
    SortDescSorted(all);
    TakeNewest(s, 5);
    assert |s| == |all| by {
      assert |multiset(s)| == |multiset(all)|;
    }
  }

  /** The call counts of the dashboard. */
  datatype Stats = Stats(total: nat, completed: nat, inProgress: nat, failed: nat)

  /** The number of calls with status `st`. */
  function CountStatus(calls: seq<CallRow>, st: CallStatus): (n: nat)
    ensures n <= |calls|
    decreases |calls|
  {
    if calls == [] then 0
    else (if calls[0].callStatus == st then 1 else 0) + CountStatus(calls[1..], st)
  }

  function DashboardStats(calls: seq<CallRow>): (s: Stats)
    ensures s.total == |calls|
  {
    Stats(|calls|, CountStatus(calls, Completed), CountStatus(calls, InProgress), CountStatus(calls, Failed))
  }

  /** Every call has exactly one of the four statuses, so the counts of the
      dashboard and the initiated calls add up to the total. */
  lemma {:induction false} StatusCountsPartition(calls: seq<CallRow>)
    ensures var s := DashboardStats(calls);
            s.completed + s.inProgress + s.failed + CountStatus(calls, Initiated) == s.total
    ensures var s := DashboardStats(calls); s.completed + s.inProgress + s.failed <= s.total
    decreases |calls|
  {
    if calls != [] {
      StatusCountsPartition(calls[1..]);
    }
  }

  /** A status count tells exactly which calls have the status: it grows by
      one with each appended call of that status. */
  lemma {:induction false} CountStatusAppend(calls: seq<CallRow>, c: CallRow, st: CallStatus)
    ensures CountStatus(calls + [c], st) == CountStatus(calls, st) + (if c.callStatus == st then 1 else 0)
    decreases |calls|
  {
    if calls != [] {
      assert (calls + [c])[1..] == calls[1..] + [c];
      CountStatusAppend(calls[1..], c, st);
    }
  }

  // ---------------------------------------------------------------------
  // The LLM websocket
  // ---------------------------------------------------------------------

  /** The keywords that switch the reply to the emergency prompt. */
  const EmergencyKeywords: seq<string> := ["emergency", "accident", "breakdown", "help", "crash"]

  const DefaultContent: string := "I understand. Can you provide more details about your current location?"
  const EmergencyContent: string :=
    "I understand this is an emergency. Can you tell me your exact location with mile markers if possible?"

  /** `any(keyword in text for keyword in keywords)`. */
  function ContainsAny(text: string, keywords: seq<string>): (r: bool)
    ensures r <==> exists i :: 0 <= i < |keywords| && Text.Contains(text, keywords[i])
    decreases |keywords|
  {
    if keywords == [] then false
    else if Text.Contains(text, keywords[0]) then true
    else
      var rest := ContainsAny(text, keywords[1..]);
      assert forall i :: 1 <= i < |keywords| ==> keywords[i] == keywords[1..][i - 1];
      rest
  }

  /** A message received on the websocket: its `interaction_type` and
      `response_id` (null when missing), its `transcript` (an empty list when
      missing) and the text Python's `str()` gives for that transcript. */
  datatype WsMessage = WsMessage(interactionType: Value, responseId: Value, transcript: Value, transcriptText: string)

  datatype WsReply =
    | Response(responseId: Value, content: string, contentComplete: bool, endCall: bool)
    | Pong

  /** The message is about an emergency: a non-empty transcript whose text,
      lower-cased, contains one of the keywords. */
  predicate IsEmergency(m: WsMessage) {
    Truthy(m.transcript) && ContainsAny(Text.Lower(m.transcriptText), EmergencyKeywords)
  }

  /** The reply to one message, if any. */
  function ReplyTo(m: WsMessage): (r: Option<WsReply>)
    ensures m.interactionType == Str("response_required") <==> r.Some? && r.value.Response?
    ensures m.interactionType == Str("ping") <==> r == Some(Pong)
    ensures r.Some? && r.value.Response? ==>
              && r.value.responseId == m.responseId
              && r.value.contentComplete && !r.value.endCall
              && (r.value.content == EmergencyContent <==> IsEmergency(m))
              && (r.value.content == DefaultContent <==> !IsEmergency(m))
  {
    if m.interactionType == Str("response_required") then
      var content := if IsEmergency(m) then EmergencyContent else DefaultContent;
      assert |EmergencyContent| != |DefaultContent|;
      Some(Response(m.responseId, content, true, false))
    else if m.interactionType == Str("ping") then Some(Pong)
    else None
  }

  /** The replies sent for a sequence of messages, in order. */
  function Replies(ms: seq<WsMessage>): seq<WsReply>
    decreases |ms|
  {
    if ms == [] then []
    else
      var last := ms[|ms| - 1];
      Replies(ms[..|ms| - 1]) + match ReplyTo(last) case Some(x) => [x] case None => []
  }

  /** Every message that expects an answer gets exactly one, and nothing else is sent. */
  lemma {:induction false} RepliesCount(ms: seq<WsMessage>)
    ensures |Replies(ms)| <= |ms|
    ensures (forall i :: 0 <= i < |ms| ==> ReplyTo(ms[i]).Some?) ==> |Replies(ms)| == |ms|
    decreases |ms|
  {
    if ms != [] {
      var init := ms[..|ms| - 1];
      RepliesCount(init);
      assert forall i :: 0 <= i < |init| ==> init[i] == ms[i];
    }
  }

  /** The receive loop of `llm_websocket` over the messages that arrive before
      the connection ends. */
  method LlmWebsocket(received: seq<WsMessage>) returns (sent: seq<WsReply>)
    ensures sent == Replies(received)
  {
    sent := [];
    var i := 0;
    while i < |received|
      invariant 0 <= i <= |received|
      invariant sent == Replies(received[..i])
    {
      assert received[..i + 1][..i] == received[..i];
      var reply := ReplyTo(received[i]);
      if reply.Some? {
        sent := sent + [reply.value];
      }
      i := i + 1;
    }
    assert received[..i] == received;
  }
}
